/** Python's built-in `min` and `max` on reals, as the two games use them, and
    `abs`, which the convergence lemmas about the acceleration use. */
module RealOps {

  function Min(a: real, b: real): (r: real)
    ensures r <= a && r <= b && (r == a || r == b)
  {
    if a <= b then a else b
  }

  function Max(a: real, b: real): (r: real)
    ensures r >= a && r >= b && (r == a || r == b)
  {
    if a >= b then a else b
  }

  function Abs(a: real): (r: real)
    ensures r >= 0.0 && (r == a || r == -a)
  {
    if a < 0.0 then -a else a
  }
}

/** The keys the two games react to; every other key code is `Other`. */
module Input {

  datatype Key = Up | Left | Right | Other
}

/** The clamp both games apply to the camera target before moving the camera. */
module Camera {

  /** Raises `v` to `floor` when it lies below it: the least value that is at
      least `v` and at least `floor`. */
  function Clamp(v: real, floor: real): (r: real)
    ensures r >= floor && r >= v
    ensures r == v || r == floor
  {
    if v < floor then floor else v
  }

  /** The camera's lower-left corner that centres the player: the player's
      centre minus half the viewport, on one axis. */
  function Centred(center: real, viewport: real): real
  {
    center - viewport / 2.0
  }
}
