/** The game state of the tutorial platformer (arcarde_tutorial.py): instant
    horizontal speed from the arrow keys, a jump that needs ground under the
    player and is cut short when UP is released, the coin score and the
    clamped camera target. The player sprite's speed fields are kept in the
    same state class as the window's. */
module TutorialGame {
  import opened RealOps
  import opened Input
  import Camera

  const PlayerMovementSpeed: real := 10.0
  const PlayerJumpSpeed: real := 20.0

  /** The player's horizontal speed for the held keys: full speed toward the
      one key held, standing still for neither or both. */
  function HorizontalSpeed(left: bool, right: bool): (r: real)
    ensures r == PlayerMovementSpeed * ((if right then 1.0 else 0.0) - (if left then 1.0 else 0.0))
    ensures r < 0.0 <==> left && !right
    ensures r > 0.0 <==> right && !left
    ensures r == 0.0 <==> left == right
  {
    if left && !right then -PlayerMovementSpeed
    else if right && !left then PlayerMovementSpeed
    else 0.0
  }

  /** The vertical state `update_player_vertical_speed` reads and writes. */
  datatype Vertical = Vertical(upPressed: bool, changeY: real)

  /** A pending UP press is consumed, launching the player when on ground;
      without one any upward speed is cancelled. */
  function VerticalSpeed(v: Vertical, canJump: bool): (r: Vertical)
    ensures !r.upPressed
    ensures v.upPressed && canJump ==> r.changeY == PlayerJumpSpeed
    ensures v.upPressed && !canJump ==> r.changeY == v.changeY
    ensures !v.upPressed ==> r.changeY <= 0.0 && r.changeY <= v.changeY && (r.changeY == v.changeY || r.changeY == 0.0)
    ensures r.changeY == PlayerJumpSpeed && v.changeY != PlayerJumpSpeed ==> v.upPressed && canJump
    ensures !v.upPressed && v.changeY <= 0.0 ==> r == v
  {
    if v.upPressed then
      Vertical(false, if canJump then PlayerJumpSpeed else v.changeY)
    else
      Vertical(false, Min(v.changeY, 0.0))
  }

  /** The camera target: the player centred, with both axes kept at 0 or more;
      an axis already non-negative is used unchanged. */
  function CameraTarget(centerX: real, centerY: real, viewportWidth: real, viewportHeight: real): (t: (real, real))
    ensures t.0 >= 0.0 && t.1 >= 0.0
    ensures Camera.Centred(centerX, viewportWidth) >= 0.0 ==> t.0 == Camera.Centred(centerX, viewportWidth)
    ensures Camera.Centred(centerX, viewportWidth) < 0.0 ==> t.0 == 0.0
    ensures Camera.Centred(centerY, viewportHeight) >= 0.0 ==> t.1 == Camera.Centred(centerY, viewportHeight)
    ensures Camera.Centred(centerY, viewportHeight) < 0.0 ==> t.1 == 0.0
  {
    (Camera.Clamp(Camera.Centred(centerX, viewportWidth), 0.0),
     Camera.Clamp(Camera.Centred(centerY, viewportHeight), 0.0))
  }

  class Game {
    var leftPressed: bool
    var rightPressed: bool
    var upPressed: bool
    var downPressed: bool
    var score: nat

    // the player sprite's speed
    var changeX: real
    var changeY: real

    function VerticalState(): Vertical
      reads this
    {
      Vertical(upPressed, changeY)
    }

    /** The window after construction and `setup`: no key held, score 0, the
        player at rest. */
    constructor ()
      ensures !leftPressed && !rightPressed && !upPressed && !downPressed
      ensures score == 0 && changeX == 0.0 && changeY == 0.0
    {
      leftPressed, rightPressed, upPressed, downPressed := false, false, false, false;
      score := 0;
      changeX, changeY := 0.0, 0.0;
    }

    /** Restarting: the score goes back to 0 and a fresh player at rest
        replaces the old one; the key flags are kept. */
    method Setup()
      modifies this
      ensures score == 0 && changeX == 0.0 && changeY == 0.0
      ensures leftPressed == old(leftPressed) && rightPressed == old(rightPressed)
      ensures upPressed == old(upPressed) && downPressed == old(downPressed)
    {
      score := 0;
      changeX, changeY := 0.0, 0.0;
    }

    /** `canJump` is the physics engine's answer; it is consulted only when a
        press is pending. */
    method UpdatePlayerVerticalSpeed(canJump: bool)
      modifies this`upPressed, this`changeY
      ensures VerticalState() == VerticalSpeed(old(VerticalState()), canJump)
    {
      if upPressed {
        upPressed := false;
        if canJump {
          changeY := PlayerJumpSpeed;
        }
      } else {
        changeY := Min(changeY, 0.0);
      }
    }

    method UpdatePlayerHorizontalSpeed()
      modifies this`changeX
      ensures changeX == HorizontalSpeed(leftPressed, rightPressed)
    {
      if leftPressed && !rightPressed {
        changeX := -PlayerMovementSpeed;
      } else if rightPressed && !leftPressed {
        changeX := PlayerMovementSpeed;
      } else if rightPressed == leftPressed {
        changeX := 0.0;
      }
    }

    /** A key press. UP on ground launches the player at once and leaves no
        press pending; UP in the air only records the press. LEFT and RIGHT set
        their own flag and recompute the horizontal speed; the vertical state
        is then untouched. */
    method OnKeyPress(key: Key, canJump: bool)
      modifies this
      ensures key == Up && canJump ==> !upPressed && changeY == PlayerJumpSpeed
      ensures key == Up && !canJump ==> upPressed && changeY == old(changeY)
      ensures key != Up ==> upPressed == old(upPressed) && changeY == old(changeY)
      ensures leftPressed == (old(leftPressed) || key == Left)
      ensures rightPressed == (old(rightPressed) || key == Right)
      ensures key == Left || key == Right ==> changeX == HorizontalSpeed(leftPressed, rightPressed)
      ensures key == Up || key == Other ==> changeX == old(changeX)
      ensures downPressed == old(downPressed) && score == old(score)
    {
      if key == Up {
        upPressed := true;
        if canJump {
          UpdatePlayerVerticalSpeed(canJump);
        }
      } else if key == Left {
        leftPressed := true;
        UpdatePlayerHorizontalSpeed();
      } else if key == Right {
        rightPressed := true;
        UpdatePlayerHorizontalSpeed();
      }
    }

    /** A key release. UP clears the press and cancels any upward speed, which
        cuts a jump short. LEFT and RIGHT clear their own flag and recompute the
        horizontal speed; the vertical state is then untouched. */
    method OnKeyRelease(key: Key)
      modifies this
      ensures key == Up ==> !upPressed && changeY == Min(old(changeY), 0.0)
      ensures key == Up ==> changeY <= 0.0 && (old(changeY) <= 0.0 ==> changeY == old(changeY))
      ensures key != Up ==> upPressed == old(upPressed) && changeY == old(changeY)
      ensures leftPressed == (old(leftPressed) && key != Left)
      ensures rightPressed == (old(rightPressed) && key != Right)
      ensures key == Left || key == Right ==> changeX == HorizontalSpeed(leftPressed, rightPressed)
      ensures key == Up || key == Other ==> changeX == old(changeX)
      ensures downPressed == old(downPressed) && score == old(score)
    {
      if key == Up {
        upPressed := false;
        // no press is pending, so the update does not consult the physics engine
        UpdatePlayerVerticalSpeed(false);
      } else if key == Left {
        leftPressed := false;
        UpdatePlayerHorizontalSpeed();
      } else if key == Right {
        rightPressed := false;
        UpdatePlayerHorizontalSpeed();
      }
    }

    /** One frame. `changeYAfterPhysics` is the vertical speed the physics
        engine leaves, `coinHits` the number of coins the player then overlaps,
        and the centre is the player's centre after the move. Returns the
        camera target. */
    method OnUpdate(changeYAfterPhysics: real, coinHits: nat,
                    centerX: real, centerY: real, viewportWidth: real, viewportHeight: real)
      returns (cameraX: real, cameraY: real)
      modifies this
      ensures score == old(score) + coinHits
      ensures changeY == changeYAfterPhysics && changeX == old(changeX)
      ensures leftPressed == old(leftPressed) && rightPressed == old(rightPressed)
      ensures upPressed == old(upPressed) && downPressed == old(downPressed)
      ensures (cameraX, cameraY) == CameraTarget(centerX, centerY, viewportWidth, viewportHeight)
    {
      // the physics engine moves the player and leaves its vertical speed
      changeY := changeYAfterPhysics;

      CollectCoins(coinHits);

      cameraX, cameraY := CenterCameraToPlayer(centerX, centerY, viewportWidth, viewportHeight);
    }

    /** The coin loop: one point per coin the player overlaps. */
    method CollectCoins(coinHits: nat)
      modifies this`score
      ensures score == old(score) + coinHits
    {
      var i := 0;
      while i < coinHits
        invariant i <= coinHits
        invariant score == old(score) + i
      {
        score := score + 1;
        i := i + 1;
      }
    }

    /** The camera target for the player's centre, computed as the window does. */
    static method CenterCameraToPlayer(centerX: real, centerY: real, viewportWidth: real, viewportHeight: real)
      returns (screenCenterX: real, screenCenterY: real)
      ensures screenCenterX >= 0.0 && screenCenterY >= 0.0
      ensures (screenCenterX, screenCenterY) == CameraTarget(centerX, centerY, viewportWidth, viewportHeight)
    {
      screenCenterX := centerX - viewportWidth / 2.0;
      screenCenterY := centerY - viewportHeight / 2.0;
      if screenCenterX < 0.0 {
        screenCenterX := 0.0;
      }
      if screenCenterY < 0.0 {
        screenCenterY := 0.0;
      }
    }
  }
}
