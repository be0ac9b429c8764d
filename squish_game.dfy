/** The game state of the squish-jump platformer (test_real.py): eased horizontal
    speed, a pose state machine that launches the jump, the coin score and the
    clamped camera target. The player sprite's own fields are kept in the same
    state class as the window's. */
module SquishGame {
  import opened RealOps
  import opened Input
  import Camera

  const PlayerMovementSpeed: real := 5.0
  const PlayerJumpSpeed: real := 12.0
  const AccelerationRate: real := 0.1
  const DecelerationRate: real := 0.1

  /** The pose whose arrival fires the jump impulse. */
  const LaunchPose: int := 6

  /** Smallest horizontal camera offset, so the map's left edge stays hidden. */
  const CameraMinX: real := 32.0

  /** The twelve jump textures, loaded in order; `jump_textures[k]` is the k-th. */
  const JumpTextures: seq<string> := [
    "squish_1.png", "squish_2.png", "squish_3.png", "squish_4.png",
    "squish_5.png", "squish_6.png", "squish_7.png", "squish_8.png",
    "squish_9.png", "squish_10.png", "squish_11.png", "squish_12.png"
  ]

  /* ---------------------------------------------------------------------
     Acceleration integrator and horizontal speed
     --------------------------------------------------------------------- */

  predicate InRange(a: real)
  {
    -1.0 <= a <= 1.0
  }

  /** Where the integrator heads: +1 for RIGHT alone, -1 for LEFT alone, 0 otherwise. */
  function Target(left: bool, right: bool): (t: real)
    ensures InRange(t)
  {
    if right && !left then 1.0 else if left && !right then -1.0 else 0.0
  }

  /** The step the integrator takes toward a target: the acceleration rate
      toward ±1, the deceleration rate toward 0. */
  function RateToward(t: real): real
  {
    if t == 0.0 then DecelerationRate else AccelerationRate
  }

  /** One tick of the acceleration integrator. Inside [-1, 1] the result lies
      between the old value and the target, moves by at most one rate step, and
      either reaches the target or moves by exactly that step; outside [-1, 1]
      nothing changes. */
  function AccelerationStep(a: real, left: bool, right: bool): (r: real)
    ensures InRange(a) ==> InRange(r)
    ensures !InRange(a) ==> r == a
    ensures InRange(a) ==> var t := Target(left, right);
      (a <= r <= t || t <= r <= a) && (r == t || Abs(r - a) == RateToward(t))
    ensures InRange(a) ==> Abs(r - a) <= RateToward(Target(left, right))
  {
    if InRange(a) then
      if right && !left then Min(a + AccelerationRate, 1.0)
      else if left && !right then Max(a - AccelerationRate, -1.0)
      else if a < 0.0 then Min(a + DecelerationRate, 0.0)
      else Max(a - DecelerationRate, 0.0)
    else a
  }

  /** The horizontal keys held during one tick. */
  datatype HeldKeys = HeldKeys(left: bool, right: bool)

  /** The acceleration after one tick per entry of `held`. */
  function AccelerationAfter(a: real, held: seq<HeldKeys>): real
    decreases |held|
  {
    if held == [] then a
    else AccelerationAfter(AccelerationStep(a, held[0].left, held[0].right), held[1..])
  }

  /** The acceleration starts at 0 and no sequence of ticks takes it out of [-1, 1]. */
  lemma {:induction false} AccelerationStaysInRange(a: real, held: seq<HeldKeys>)
    requires InRange(a)
    ensures InRange(AccelerationAfter(a, held))
    decreases |held|
  {
    if held != [] {
      AccelerationStaysInRange(AccelerationStep(a, held[0].left, held[0].right), held[1..]);
    }
  }

  /** One tick brings the acceleration exactly one rate step closer to the
      target, or onto it. */
  lemma StepApproachesTarget(a: real, left: bool, right: bool)
    requires InRange(a)
    ensures Abs(AccelerationStep(a, left, right) - Target(left, right)) == Max(0.0, Abs(a - Target(left, right)) - 0.1)
  {
  }

  /** While the same target is held, the distance to it shrinks by exactly one
      rate step per tick until it is reached: coasting (neither or both keys) comes to rest
      within 10 ticks, and one key held for 20 ticks reaches full acceleration. */
  lemma {:induction false} SameTargetConverges(a: real, held: seq<HeldKeys>, t: real)
    requires InRange(a)
    requires forall i | 0 <= i < |held| :: Target(held[i].left, held[i].right) == t
    ensures Abs(AccelerationAfter(a, held) - t) == Max(0.0, Abs(a - t) - 0.1 * |held| as real)
    ensures |held| >= 20 ==> AccelerationAfter(a, held) == t
    ensures t == 0.0 && |held| >= 10 ==> AccelerationAfter(a, held) == 0.0
    decreases |held|
  {
    if held != [] {
      var n := |held| as real;
      assert t == Target(held[0].left, held[0].right);
      var a' := AccelerationStep(a, held[0].left, held[0].right);
      StepApproachesTarget(a, held[0].left, held[0].right);
      SameTargetConverges(a', held[1..], t);
      var d, d', x := Abs(a - t), Abs(a' - t), Abs(AccelerationAfter(a, held) - t);
      assert x == Max(0.0, d' - 0.1 * (n - 1.0));
      if d <= 0.1 {
        assert d' == 0.0;
      }
      assert x == Max(0.0, d - 0.1 * n);
      assert d <= 2.0;
    }
  }

  /** The player's horizontal speed for the held keys and the acceleration. */
  function HorizontalSpeed(left: bool, right: bool, acceleration: real): (r: real)
    ensures InRange(acceleration) && left && !right ==> -PlayerMovementSpeed <= r <= 0.0
    ensures InRange(acceleration) && right && !left ==> 0.0 <= r <= PlayerMovementSpeed
    ensures left == right ==> r == PlayerMovementSpeed * acceleration
    ensures acceleration == Target(left, right) ==> r == PlayerMovementSpeed * acceleration
    ensures InRange(acceleration) && left && !right && acceleration <= 0.0 ==> r <= -PlayerMovementSpeed / 2.0
    ensures InRange(acceleration) && right && !left && acceleration >= 0.0 ==> r >= PlayerMovementSpeed / 2.0
  {
    if left && !right then
      Max(-PlayerMovementSpeed, Min(PlayerMovementSpeed * acceleration, PlayerMovementSpeed * 0.5 * (acceleration - 1.0)))
    else if right && !left then
      Min(PlayerMovementSpeed, Max(PlayerMovementSpeed * acceleration, PlayerMovementSpeed * 0.5 * (acceleration + 1.0)))
    else
      PlayerMovementSpeed * acceleration
  }

  /* ---------------------------------------------------------------------
     Jump pose state machine
     --------------------------------------------------------------------- */

  /** The player sprite's jump-related fields. */
  datatype Pose = Pose(upPressed: bool, jumping: bool, jumpState: int, changeY: real, texture: string, down: bool)

  /** The pose invariant: the pose index is in 1..6 and the texture is one of the loaded ones. */
  predicate ValidPose(p: Pose)
  {
    1 <= p.jumpState <= LaunchPose && p.texture in JumpTextures
  }

  /** A freshly constructed player: pose 1, first texture, at rest. */
  const InitialPose: Pose := Pose(false, false, 1, 0.0, JumpTextures[0], false)

  /** One animation tick of the player sprite. Entering pose 6 fires the
      jump impulse and returns to pose 1; with UP held and no vertical speed
      the pose advances by one; without UP while moving vertically it returns
      to pose 1; otherwise it stays. */
  function Animate(p: Pose): (q: Pose)
    requires ValidPose(p)
    ensures ValidPose(q)
    ensures q.upPressed == p.upPressed && q.jumping == p.upPressed
    ensures q.changeY == if p.jumpState == LaunchPose then PlayerJumpSpeed else p.changeY
    ensures p.jumpState == LaunchPose ==> q.jumpState == 1
    ensures p.jumpState == LaunchPose ==>
      q.texture == (if p.upPressed then p.texture else JumpTextures[0]) && q.down == (p.upPressed && p.down)
    ensures p.jumpState != LaunchPose && p.upPressed && p.changeY == 0.0 ==>
      q.jumpState == p.jumpState + 1 && q.texture == JumpTextures[q.jumpState - 1] && q.down == p.down
    ensures p.jumpState != LaunchPose && !p.upPressed && p.changeY != 0.0 ==>
      q.jumpState == 1 && q.texture == JumpTextures[0] && !q.down
    ensures p.jumpState != LaunchPose && (p.upPressed <==> p.changeY != 0.0) ==>
      q.jumpState == p.jumpState && q.texture == p.texture && q.down == p.down
    ensures q.down ==> p.down
  {
    var jumping := p.upPressed;
    var launched := p.jumpState == LaunchPose;
    var state := if launched then 1 else p.jumpState;
    var changeY := if launched then PlayerJumpSpeed else p.changeY;
    if jumping then
      if state <= LaunchPose && changeY == 0.0 then
        p.(jumping := true, jumpState := state + 1, changeY := changeY, texture := JumpTextures[state])
      else
        p.(jumping := true, jumpState := state, changeY := changeY)
    else if changeY != 0.0 then
      p.(jumping := false, down := false, jumpState := 1, changeY := changeY, texture := JumpTextures[0])
    else
      p.(jumping := false, jumpState := state, changeY := changeY)
  }

  /** Pressing UP: the flag is set and the pose restarts at 1. */
  function PoseOnUpPress(p: Pose): (q: Pose)
    requires ValidPose(p)
    ensures ValidPose(q) && q.upPressed && q.jumpState == 1
    ensures q == p.(upPressed := q.upPressed, jumpState := q.jumpState)
  {
    p.(upPressed := true, jumpState := 1)
  }

  /** Releasing UP: the flag is cleared, and the pose jumps to 6 (arming the
      launch) when it was not there already and the player stands on ground. */
  function PoseOnUpRelease(p: Pose, canJump: bool): (q: Pose)
    requires ValidPose(p)
    ensures ValidPose(q) && !q.upPressed
    ensures q.jumpState == LaunchPose <==> p.jumpState == LaunchPose || canJump
    ensures q.jumpState != LaunchPose ==> q.jumpState == p.jumpState
    ensures q == p.(upPressed := q.upPressed, jumpState := q.jumpState)
  {
    var p' := p.(upPressed := false);
    if p.jumpState != LaunchPose && canJump then p'.(jumpState := LaunchPose) else p'
  }

  /** One frame as the pose sees it: the animation runs only while the player
      can jump, then the physics engine leaves its own vertical speed. */
  function PoseOnFrame(p: Pose, canJump: bool, changeYAfterPhysics: real): (q: Pose)
    requires ValidPose(p)
    ensures ValidPose(q) && q.changeY == changeYAfterPhysics
    ensures canJump ==> q == Animate(p).(changeY := changeYAfterPhysics)
    ensures !canJump ==> q == p.(changeY := changeYAfterPhysics)
  {
    (if canJump then Animate(p) else p).(changeY := changeYAfterPhysics)
  }

  /** Everything that reaches the pose: frames, UP presses and UP releases. */
  datatype PoseEvent =
    | Frame(canJump: bool, changeYAfterPhysics: real)
    | UpPress
    | UpRelease(canJump: bool)

  function PoseStep(p: Pose, e: PoseEvent): (q: Pose)
    requires ValidPose(p)
    ensures ValidPose(q)
  {
    match e
    case Frame(canJump, changeY) => PoseOnFrame(p, canJump, changeY)
    case UpPress => PoseOnUpPress(p)
    case UpRelease(canJump) => PoseOnUpRelease(p, canJump)
  }

  /** The pose after a sequence of events: no sequence takes the pose out of
      1..6 or the texture out of the twelve loaded ones. */
  function PoseAfter(p: Pose, events: seq<PoseEvent>): (q: Pose)
    requires ValidPose(p)
    ensures ValidPose(q)
    decreases |events|
  {
    if events == [] then p else PoseAfter(PoseStep(p, events[0]), events[1..])
  }

  /** `n` frames standing still on ground: the player can jump and the physics
      engine leaves no vertical speed. */
  function GroundedFrames(n: nat): (s: seq<PoseEvent>)
    ensures |s| == n
  {
    seq(n, _ => Frame(true, 0.0))
  }

  /** Holding UP on ground from pose k walks the pose up to 6 in 6 - k frames
      without any vertical speed, and the next animation tick fires the jump
      impulse and returns to pose 1. */
  lemma {:induction false} GroundedHoldLaunches(p: Pose)
    requires ValidPose(p) && p.upPressed && p.changeY == 0.0
    ensures var q := PoseAfter(p, GroundedFrames(LaunchPose - p.jumpState));
      q.jumpState == LaunchPose && q.changeY == 0.0 && q.upPressed &&
      Animate(q).changeY == PlayerJumpSpeed && Animate(q).jumpState == 1
    decreases LaunchPose - p.jumpState
  {
    if p.jumpState < LaunchPose {
      var n := LaunchPose - p.jumpState;
      var p' := PoseStep(p, Frame(true, 0.0));
      assert p'.jumpState == p.jumpState + 1;
      assert GroundedFrames(n)[1..] == GroundedFrames(n - 1);
      GroundedHoldLaunches(p');
    }
  }

  /** A tap of UP while on ground arms the launch: the next animation tick
      fires the jump impulse. */
  lemma TapLaunches(p: Pose)
    requires ValidPose(p)
    ensures Animate(PoseAfter(p, [UpPress, UpRelease(true)])).changeY == PlayerJumpSpeed
  {
  }

  /* ---------------------------------------------------------------------
     Camera
     --------------------------------------------------------------------- */

  /** The camera target: the player centred, with x kept at 32 or more and y
      at 0 or more; an axis already at its threshold is used unchanged. */
  function CameraTarget(centerX: real, centerY: real, viewportWidth: real, viewportHeight: real): (t: (real, real))
    ensures t.0 >= CameraMinX && t.1 >= 0.0
    ensures Camera.Centred(centerX, viewportWidth) >= CameraMinX ==> t.0 == Camera.Centred(centerX, viewportWidth)
    ensures Camera.Centred(centerX, viewportWidth) < CameraMinX ==> t.0 == CameraMinX
    ensures Camera.Centred(centerY, viewportHeight) >= 0.0 ==> t.1 == Camera.Centred(centerY, viewportHeight)
    ensures Camera.Centred(centerY, viewportHeight) < 0.0 ==> t.1 == 0.0
  {
    (Camera.Clamp(Camera.Centred(centerX, viewportWidth), CameraMinX),
     Camera.Clamp(Camera.Centred(centerY, viewportHeight), 0.0))
  }

  /* ---------------------------------------------------------------------
     The game window's state
     --------------------------------------------------------------------- */

  class Game {
    var leftPressed: bool
    var rightPressed: bool
    var downPressed: bool
    var score: nat
    var acceleration: real
    var frame: nat
    var changeX: real

    // the player sprite's fields
    var upPressed: bool
    var jumping: bool
    var jumpState: int
    var changeY: real
    var texture: string
    var down: bool

    function PlayerPose(): Pose
      reads this
    {
      Pose(upPressed, jumping, jumpState, changeY, texture, down)
    }

    predicate Valid()
      reads this
    {
      InRange(acceleration) && ValidPose(PlayerPose())
    }

    /** The window after construction and `setup`: no key held, score, frame
        and acceleration 0, a fresh player at rest. */
    constructor ()
      ensures Valid()
      ensures !leftPressed && !rightPressed && !downPressed
      ensures score == 0 && frame == 0 && acceleration == 0.0 && changeX == 0.0
      ensures PlayerPose() == InitialPose
    {
      leftPressed, rightPressed, downPressed := false, false, false;
      score := 0;
      acceleration := 0.0;
      frame := 0;
      changeX := 0.0;
      upPressed, jumping, jumpState, changeY := false, false, 1, 0.0;
      texture := JumpTextures[0];
      down := false;
    }

    /** Restarting: the score goes back to 0 and a fresh player replaces the
        old one; key flags, frame and acceleration are kept. */
    method Setup()
      requires Valid()
      modifies this
      ensures Valid()
      ensures score == 0 && changeX == 0.0 && PlayerPose() == InitialPose
      ensures leftPressed == old(leftPressed) && rightPressed == old(rightPressed) && downPressed == old(downPressed)
      ensures frame == old(frame) && acceleration == old(acceleration)
    {
      score := 0;
      changeX := 0.0;
      upPressed, jumping, jumpState, changeY := false, false, 1, 0.0;
      texture := JumpTextures[0];
      down := false;
    }

    /** The player's animation tick. */
    method UpdateAnimation()
      requires Valid()
      modifies this
      ensures Valid()
      ensures PlayerPose() == Animate(old(PlayerPose()))
      ensures leftPressed == old(leftPressed) && rightPressed == old(rightPressed) && downPressed == old(downPressed)
      ensures score == old(score) && frame == old(frame) && acceleration == old(acceleration) && changeX == old(changeX)
    {
      if upPressed {
        jumping := true;
      } else {
        jumping := false;
      }
      if jumpState == LaunchPose {
        changeY := PlayerJumpSpeed;
        jumpState := 1;
      }
      if jumping {
        if jumpState <= LaunchPose && changeY == 0.0 {
          jumpState := jumpState + 1;
          texture := JumpTextures[jumpState - 1];
        }
      } else if changeY != 0.0 {
        down := false;
        jumpState := 1;
        texture := JumpTextures[jumpState - 1];
      }
    }

    method UpdatePlayerHorizontalSpeed()
      modifies this`changeX
      ensures changeX == HorizontalSpeed(leftPressed, rightPressed, acceleration)
    {
      if leftPressed && !rightPressed {
        changeX := Max(-PlayerMovementSpeed, Min(PlayerMovementSpeed * acceleration, PlayerMovementSpeed * 0.5 * (acceleration - 1.0)));
      } else if rightPressed && !leftPressed {
        changeX := Min(PlayerMovementSpeed, Max(PlayerMovementSpeed * acceleration, PlayerMovementSpeed * 0.5 * (acceleration + 1.0)));
      } else if rightPressed == leftPressed {
        changeX := PlayerMovementSpeed * acceleration;
      }
    }

    /** A key press: UP sets the player's flag and restarts the pose; LEFT and
        RIGHT set their own flag. Nothing else changes. */
    method OnKeyPress(key: Key)
      requires Valid()
      modifies this
      ensures Valid()
      ensures PlayerPose() == if key == Up then PoseOnUpPress(old(PlayerPose())) else old(PlayerPose())
      ensures leftPressed == (old(leftPressed) || key == Left)
      ensures rightPressed == (old(rightPressed) || key == Right)
      ensures downPressed == old(downPressed)
      ensures score == old(score) && frame == old(frame) && acceleration == old(acceleration) && changeX == old(changeX)
    {
      if key == Up {
        upPressed := true;
        jumpState := 1;
      } else if key == Left {
        leftPressed := true;
      } else if key == Right {
        rightPressed := true;
      }
    }

    /** A key release: UP clears the player's flag and arms the launch when the
        player can jump; LEFT and RIGHT clear their own flag. Nothing else changes. */
    method OnKeyRelease(key: Key, canJump: bool)
      requires Valid()
      modifies this
      ensures Valid()
      ensures PlayerPose() == if key == Up then PoseOnUpRelease(old(PlayerPose()), canJump) else old(PlayerPose())
      ensures leftPressed == (old(leftPressed) && key != Left)
      ensures rightPressed == (old(rightPressed) && key != Right)
      ensures downPressed == old(downPressed)
      ensures score == old(score) && frame == old(frame) && acceleration == old(acceleration) && changeX == old(changeX)
    {
      if key == Up {
        upPressed := false;
        if jumpState != LaunchPose && canJump {
          jumpState := LaunchPose;
        }
      }
      if key == Left {
        leftPressed := false;
      } else if key == Right {
        rightPressed := false;
      }
    }

    /** One frame. `canJump` is the physics engine's answer before it moves the
        player, `changeYAfterPhysics` the vertical speed it leaves, `coinHits`
        the number of coins the player then overlaps, and the centre is the
        player's centre after the move. Returns the camera target. */
    method OnUpdate(canJump: bool, changeYAfterPhysics: real, coinHits: nat,
                    centerX: real, centerY: real, viewportWidth: real, viewportHeight: real)
      returns (cameraX: real, cameraY: real)
      requires Valid()
      modifies this
      ensures Valid()
      ensures frame == old(frame) + 1
      ensures score == old(score) + coinHits
      ensures acceleration == AccelerationStep(old(acceleration), leftPressed, rightPressed)
      ensures changeX == HorizontalSpeed(leftPressed, rightPressed, acceleration)
      ensures PlayerPose() == PoseOnFrame(old(PlayerPose()), canJump, changeYAfterPhysics)
      ensures leftPressed == old(leftPressed) && rightPressed == old(rightPressed) && downPressed == old(downPressed)
      ensures (cameraX, cameraY) == CameraTarget(centerX, centerY, viewportWidth, viewportHeight)
    {
      frame := frame + 1;

      Accelerate();

      if canJump {
        UpdateAnimation();
      }

      UpdatePlayerHorizontalSpeed();

      // the physics engine moves the player and leaves its vertical speed
      changeY := changeYAfterPhysics;

      CollectCoins(coinHits);

      cameraX, cameraY := CenterCameraToPlayer(centerX, centerY, viewportWidth, viewportHeight);
    }

    /** The acceleration block at the start of a frame: ease toward the held
        direction, or back toward 0. */
    method Accelerate()
      modifies this`acceleration
      ensures acceleration == AccelerationStep(old(acceleration), leftPressed, rightPressed)
    {
      if acceleration >= -1.0 && acceleration <= 1.0 {
        if rightPressed && !leftPressed {
          acceleration := Min(acceleration + AccelerationRate, 1.0);
        } else if leftPressed && !rightPressed {
          acceleration := Max(acceleration - AccelerationRate, -1.0);
        } else {
          if acceleration < 0.0 {
            acceleration := Min(acceleration + DecelerationRate, 0.0);
          } else {
            acceleration := Max(acceleration - DecelerationRate, 0.0);
          }
        }
      }
    }

    /** The coin loop: one point per coin the player overlaps. */
    method CollectCoins(coinHits: nat)
      modifies this`score
      ensures score == old(score) + coinHits
    {
      var i := 0;
      while i < coinHits
        invariant i <= coinHits
        invariant score == old(score) + i
      {
        score := score + 1;
        i := i + 1;
      }
    }

    /** The camera target for the player's centre, computed as the window does. */
    static method CenterCameraToPlayer(centerX: real, centerY: real, viewportWidth: real, viewportHeight: real)
      returns (screenCenterX: real, screenCenterY: real)
      ensures screenCenterX >= CameraMinX && screenCenterY >= 0.0
      ensures (screenCenterX, screenCenterY) == CameraTarget(centerX, centerY, viewportWidth, viewportHeight)
    {
      screenCenterX := centerX - viewportWidth / 2.0;
      screenCenterY := centerY - viewportHeight / 2.0;
      if screenCenterX < CameraMinX {
        screenCenterX := CameraMinX;
      }
      if screenCenterY < 0.0 {
        screenCenterY := 0.0;
      }
    }
  }
}
