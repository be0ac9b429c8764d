# Platformer game-state model

A Dafny model of the game logic in two tutorial platformers built on the
Arcade library. It covers only the logic the games compute themselves. The
library's physics, collision queries, tile maps, rendering and sound are not
modelled. What those parts would answer is passed in as method parameters.

- `squish_game.dfy`, module `SquishGame`, models `test_real.py`. It covers:
  - the per-frame acceleration integrator, which eases toward ±1 while one
    horizontal key is held and back toward 0 otherwise;
  - the smoothed horizontal speed derived from that acceleration;
  - the squish-jump pose state machine of the player sprite, which walks the
    pose 1..6 and fires the jump impulse on reaching 6;
  - the key handlers, the frame and coin counters, and the camera clamp
    (x ≥ 32, y ≥ 0).
- `tutorial_game.dfy`, module `TutorialGame`, models `arcarde_tutorial.py`. It
  covers:
  - the instant horizontal speed (−10, +10 or 0);
  - a jump that fires only when the player stands on ground;
  - releasing UP, which cancels upward speed;
  - the key handlers, the coin counter, and the camera clamp (both axes ≥ 0).
- `common.dfy` holds Python's `min`/`max` on reals and an `abs` used by the
  convergence lemmas (`RealOps`), the keys the games react to (`Input`) and
  the camera clamp both games share (`Camera`).

Each source file becomes one state class, `Game`. It holds the window's key
flags, score, frame and acceleration, and also the fields of the player
sprite that the code writes (`change_x`, `change_y`, `up_pressed`,
`jump_state`, `texture`, …). Each method says exactly what the new state is,
in terms of pure functions (`AccelerationStep`, `HorizontalSpeed`, `Animate`,
`PoseOnUpPress`, `PoseOnUpRelease`, `PoseOnFrame`, `VerticalSpeed`,
`CameraTarget`). The properties are proved about those functions and over
whole sequences of ticks and key events (`AccelerationAfter`, `PoseAfter`).

Inputs that stand in for the library:

- `canJump` is the physics engine's `can_jump()`. In `arcarde_tutorial.py` it
  is queried twice in one key press (lines 176 and 150); both calls are
  assumed to give the same answer.
- `changeYAfterPhysics` is the vertical speed the physics engine leaves after
  `update()`.
- `coinHits` is the length of the coin-collision list.
- `centerX`, `centerY`, `viewportWidth`, `viewportHeight` are the player's
  centre after the move and the camera's viewport size. The frame methods
  return the camera target instead of calling `camera.move_to`.

In `test_real.py` the key handlers do not recompute the horizontal speed; only
`on_update` does, through `update_player_horizontal_speed`. The UP handlers
there do not launch the player themselves either: they set the flag and the
pose, and the jump fires from the animation tick.

## Model

| member | source | states |
|---|---|---|
| `Camera.Clamp` | arcarde_tutorial.py:220-223 | the clamped value is at least the floor and at least the input, and is one of the two |
| `SquishGame.AccelerationStep` | test_real.py:282-293 | inside [-1, 1] one tick stays inside [-1, 1], lands between the old value and the target (+1 RIGHT only, -1 LEFT only, 0 otherwise), moves by at most one rate step (0.1), and either reaches the target or moves by exactly that step; outside [-1, 1] nothing changes |
| `SquishGame.AccelerationStaysInRange` | test_real.py:282-293 | starting inside [-1, 1] (the initial 0 of line 118), no sequence of ticks takes the acceleration out of [-1, 1] |
| `SquishGame.StepApproachesTarget` | test_real.py:284-293 | after one tick the distance to the target is exactly max(0, old distance − 0.1) |
| `SquishGame.SameTargetConverges` | test_real.py:282-293 | with one target held for n ticks, the distance to it is exactly max(0, old distance − 0.1·n); coasting reaches exactly 0 within 10 ticks, and a held key reaches exactly ±1 within 20 |
| `SquishGame.HorizontalSpeed` | test_real.py:201-210 | for an acceleration in [-1, 1]: LEFT only gives a speed in [-5, 0], at most -2.5 when the acceleration is not positive; RIGHT only gives a speed in [0, 5], at least 2.5 when it is not negative; neither or both give 5·acceleration; full acceleration in the held direction gives full speed |
| `SquishGame.Animate` | test_real.py:61-78 | keeps the pose in 1..6 and the texture among the 12 loaded; sets the vertical speed to 12 exactly when entered in pose 6, then restarts at pose 1, keeping the texture while UP is held and otherwise showing the first texture with `down` cleared; with UP held and no vertical speed the pose advances by one and shows texture pose-1; without UP while moving vertically it returns to pose 1 and the first texture; otherwise the pose is unchanged |
| `SquishGame.PoseOnUpPress` | test_real.py:220-222 | sets the player's UP flag and restarts the pose at 1; nothing else changes |
| `SquishGame.PoseOnUpRelease` | test_real.py:238-241 | clears the UP flag; the result is in pose 6 exactly when it already was or the player can jump; otherwise the pose is unchanged; nothing else changes |
| `SquishGame.PoseOnFrame` | test_real.py:295-304 | while the player can jump the pose is `Animate` of the old one, otherwise it is unchanged; either way it then takes the physics engine's vertical speed, and the invariant is kept |
| `SquishGame.PoseAfter` | test_real.py:42-77 | from a valid pose (the initial pose 1 of line 42), no sequence of frames, UP presses and UP releases leaves pose 1..6 or the 12 loaded textures (lines 44-47) |
| `SquishGame.GroundedHoldLaunches` | test_real.py:66-72 | holding UP on ground from pose k reaches pose 6 after 6-k frames without any vertical speed, and the next animation tick sets the vertical speed to 12 and returns to pose 1 |
| `SquishGame.TapLaunches` | test_real.py:220-241 | pressing and releasing UP on ground arms the launch: the next animation tick sets the vertical speed to 12 |
| `SquishGame.CameraTarget` | test_real.py:257-264 | the camera target has x ≥ 32 and y ≥ 0; an axis where the centred value already meets its threshold keeps that value, otherwise it is the threshold |
| `SquishGame.Game.constructor` | test_real.py:110-120 | the window starts with no key held, score, frame and acceleration 0, and a player at rest in pose 1 with the first texture; the invariant holds |
| `SquishGame.Game.Setup` | test_real.py:156-162 | score back to 0 and a fresh player; key flags, frame and acceleration kept |
| `SquishGame.Game.UpdateAnimation` | test_real.py:61-78 | the player's fields become `Animate` of the old ones; the window's fields are unchanged; the invariant is kept |
| `SquishGame.Game.UpdatePlayerHorizontalSpeed` | test_real.py:201-210 | the three branches are exhaustive: the horizontal speed is always set, to `HorizontalSpeed` of the flags and the acceleration |
| `SquishGame.Game.OnKeyPress` | test_real.py:213-229 | UP applies `PoseOnUpPress`; LEFT and RIGHT set only their own flag; nothing else changes |
| `SquishGame.Game.OnKeyRelease` | test_real.py:231-248 | UP applies `PoseOnUpRelease`; LEFT and RIGHT clear only their own flag; nothing else changes |
| `SquishGame.Game.Accelerate` | test_real.py:281-293 | the acceleration becomes `AccelerationStep` of the old value and the held keys |
| `SquishGame.Game.CollectCoins` | test_real.py:315-321 | the score grows by exactly the number of coins hit |
| `SquishGame.Game.OnUpdate` | test_real.py:272-324 | the frame grows by exactly 1; the score grows by exactly the coins hit and never falls; the acceleration takes one integrator step; the horizontal speed follows the new acceleration; the pose follows `PoseOnFrame`; the flags are unchanged; the camera target is `CameraTarget`; the invariant is kept |
| `SquishGame.Game.CenterCameraToPlayer` | test_real.py:250-270 | the target has x ≥ 32 and y ≥ 0 and equals `CameraTarget` |
| `TutorialGame.HorizontalSpeed` | arcarde_tutorial.py:155-164 | the speed is 10·(RIGHT held − LEFT held): negative exactly for LEFT only, positive exactly for RIGHT only, 0 exactly for neither or both |
| `TutorialGame.VerticalSpeed` | arcarde_tutorial.py:148-153 | the pending UP press is always consumed; with a press and ground the vertical speed becomes 20, and it becomes 20 from anything else only then; with a press in the air it is unchanged; without a press it becomes min(old, 0): never positive, and unchanged if already ≤ 0 |
| `TutorialGame.CameraTarget` | arcarde_tutorial.py:216-223 | the camera target has x ≥ 0 and y ≥ 0, and equals the player centre minus half the viewport on every axis where that is already non-negative |
| `TutorialGame.Game.constructor` | arcarde_tutorial.py:53-60 | the window starts with no key held, score 0 and the player at rest |
| `TutorialGame.Game.Setup` | arcarde_tutorial.py:96-104 | score back to 0 and a fresh player at rest; key flags kept |
| `TutorialGame.Game.UpdatePlayerVerticalSpeed` | arcarde_tutorial.py:142-153 | the UP flag and vertical speed become `VerticalSpeed` of the old ones |
| `TutorialGame.Game.UpdatePlayerHorizontalSpeed` | arcarde_tutorial.py:155-164 | the three branches are exhaustive: the horizontal speed is always set, to `HorizontalSpeed` of the flags |
| `TutorialGame.Game.OnKeyPress` | arcarde_tutorial.py:167-185 | UP on ground gives vertical speed 20 with no press pending; UP in the air only sets the flag and leaves the vertical speed; LEFT and RIGHT set only their own flag, recompute the horizontal speed and leave the vertical state untouched |
| `TutorialGame.Game.OnKeyRelease` | arcarde_tutorial.py:187-204 | UP leaves no press pending and the vertical speed at min(old, 0), which cancels any upward speed; LEFT and RIGHT clear only their own flag, recompute the horizontal speed and leave the vertical state untouched |
| `TutorialGame.Game.CollectCoins` | arcarde_tutorial.py:246-252 | the score grows by exactly the number of coins hit |
| `TutorialGame.Game.OnUpdate` | arcarde_tutorial.py:231-255 | the score grows by exactly the coins hit and never falls; the vertical speed is the physics engine's; the flags and horizontal speed are unchanged; the camera target is `CameraTarget` |
| `TutorialGame.Game.CenterCameraToPlayer` | arcarde_tutorial.py:209-229 | the target has x ≥ 0 and y ≥ 0 and equals `CameraTarget` |

## Left out

- Rendering and windowing are not modelled: `on_draw`, `draw_text`, camera `use`/`move_to`, and background colours. The frame methods return the camera target instead.
- The Arcade library is not part of this model: `PhysicsEnginePlatformer` (`update`, `can_jump`), `check_for_collision_with_list`, `load_tilemap`, `Scene`, `remove_from_sprite_lists` and sounds. Their results are parameters. Coin removal and sound playback are left out.
- The player's position and its `round(center_x)` (test_real.py:301) are not modelled. The centre after the physics step is a parameter.
- Texture loading (`load_texture`, test_real.py:28-32, 44-50) is left out. `JumpTextures` keeps only the twelve file names in order, and a texture is represented by its name. The hit box, which follows the texture, is left out.
- Floating point is not modelled. Speeds, acceleration and positions are exact reals, so the 0.1 steps and the halving of the viewport have no rounding error.
- `SquishGame.SameTargetConverges` states the convergence for a step of 0.1. That is the value of both `ACCELERATION_RATE` and `DECELERATION_RATE`; a change to either constant is not tracked by that lemma. Its tick counts (at rest within 10 ticks, at ±1 within 20) hold for exact reals only. With doubles, coasting from 1.0 leaves about 1.4e-16 after 10 ticks and reaches 0 on the 11th, and going from -1 to +1 takes 21 ticks.
- The debug `print`s are left out (test_real.py:326, arcarde_tutorial.py:207). So is the first `on_update` of arcarde_tutorial.py (lines 206-207), which the second definition at line 231 replaces.
- `main`, `arcade.run` and the module-level entry point are left out.
- `down_pressed` is kept as a field but is never written by either game, and the model does not write it either. The DOWN key and every other key are `Input.Other` and change nothing.
