/**
  The example game's shell: a patrol controller that drives its body
  left or right at a fixed speed and turns around when the last collision
  resolution pushed the body back against its direction of travel.
*/
module Shell {

  import opened Resolution

  /** Java's `int`: a 32-bit two's-complement integer. */
  newtype i32 = x: int | -0x8000_0000 <= x < 0x8000_0000

  const MinI32: i32 := -0x8000_0000

  /** Java's `-n` on an `int`: the negation wraps around at the smallest value. */
  function Negate(n: i32): (m: i32)
    ensures n != MinI32 ==> m as int == -(n as int)
    ensures n == MinI32 ==> m == MinI32
  {
    if n == MinI32 then n else -n
  }

  /** The horizontal velocity a shell drives with: `-speed` going left, `speed` going right. */
  function Drive(left: bool, speed: i32): real
  {
    if left then Negate(speed) as int as real else speed as int as real
  }

  /** What one update leaves: the direction, and the body's horizontal velocity. */
  datatype Patrol = Patrol(left: bool, vx: real)

  /**
    One update of a shell that is `moving` in direction `left`, whose body
    was last resolved by `pushX` horizontally and moves at `vx`.
  */
  function Steer(moving: bool, left: bool, speed: i32, pushX: real, vx: real): (r: Patrol)
    // a stopped shell does nothing
    ensures !moving ==> r == Patrol(left, vx)
    // it turns only when pushed back against its direction, and the turning update leaves the velocity alone
    ensures r.left != left <==> moving && (if left then pushX > 0.0 else pushX < 0.0)
    ensures r.left != left ==> r.vx == vx
    // otherwise a moving shell drives in its direction at its speed
    ensures moving && r.left == left ==> r.vx == Drive(left, speed)
  {
    if !moving then Patrol(left, vx)
    else if left then
      if pushX > 0.0 then Patrol(false, vx) else Patrol(true, Drive(true, speed))
    else
      if pushX < 0.0 then Patrol(true, vx) else Patrol(false, Drive(false, speed))
  }

  /**
    A moving shell pushed back turns on one update and drives the other way
    on the next update that meets no push.
  */
  lemma TurnThenDrive(left: bool, speed: i32, pushX: real, vx: real)
    requires if left then pushX > 0.0 else pushX < 0.0
    ensures var turned := Steer(true, left, speed, pushX, vx);
      && turned == Patrol(!left, vx)
      && Steer(true, turned.left, speed, 0.0, turned.vx) == Patrol(!left, Drive(!left, speed))
  {
  }

  /** With no push, an update is idempotent: a second one changes nothing more. */
  lemma UnpushedIdempotent(moving: bool, left: bool, speed: i32, vx: real)
    ensures var once := Steer(moving, left, speed, 0.0, vx);
      Steer(moving, once.left, speed, 0.0, once.vx) == once
  {
  }

  /** Whatever the push, a moving shell's velocity after an update is either untouched or its drive. */
  lemma VelocityIsDriveOrKept(moving: bool, left: bool, speed: i32, pushX: real, vx: real)
    ensures var r := Steer(moving, left, speed, pushX, vx);
      r.vx == vx || r.vx == Drive(r.left, speed)
  {
  }

  class ShellController {
    var moving: bool
    var left: bool
    var speed: i32

    /** A new shell is moving, heading right. */
    constructor (speed: i32)
      ensures moving && !left && this.speed == speed
    {
      moving := true;
      left := false;
      this.speed := speed;
    }

    /**
      Drives `body` for one update.  The time step is not used.  Only the
      direction and the body's horizontal velocity can change.
    */
    method Update(delta: real, body: BitBody)
      modifies this`left, body.velocity
      ensures var r := Steer(moving, old(left), speed, old(body.lastResolution.x), old(body.velocity.x));
        left == r.left && body.velocity.x == r.vx
      ensures body.velocity.y == old(body.velocity.y)
    {
      if moving {
        if left {
          if body.lastResolution.x > 0.0 {
            left := false;
            return;
          } else {
            body.velocity.x := Negate(speed) as int as real;
          }
        } else {
          if body.lastResolution.x < 0.0 {
            left := true;
          } else {
            body.velocity.x := speed as int as real;
          }
        }
      }
    }
  }
}
