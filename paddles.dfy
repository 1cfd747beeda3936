/** A paddle moves vertically only, at a fixed speed, clamped against the walls. */
module Paddles {
  import opened Settings
  import opened Geometry

  /** `Paddle.speed`, in pixels per second. */
  const Speed: real := 150.0

  /** The paddle's top edge after `moveUp(dt)`: it rises by `Speed * dt` and is
      then clamped so that it does not pass above the upper wall. */
  function MovedUp(posY: real, dt: real, upper: real): (r: real)
    ensures r >= upper
    ensures r == posY - Speed * dt || r == upper
    ensures posY - Speed * dt >= upper ==> r == posY - Speed * dt
  {
    if posY - Speed * dt < upper then upper else posY - Speed * dt
  }

  /** The paddle's top edge after `moveDown(dt)`: it falls by `Speed * dt` and is
      then clamped so that its bottom edge does not pass below the lower wall. */
  function MovedDown(posY: real, height: real, dt: real, lower: real): (r: real)
    ensures r + height <= lower
    ensures r == posY + Speed * dt || r == lower - height
    ensures posY + Speed * dt + height <= lower ==> r == posY + Speed * dt
  {
    if posY + Speed * dt + height > lower then lower - height else posY + Speed * dt
  }

  /** The paddle's box lies between the two walls. */
  predicate InCourt(posY: real, height: real, b: Bounds)
  {
    b.upper <= posY && posY + height <= b.lower
  }

  /** From a position between the walls and with non-negative `dt`, moving up keeps
      the whole paddle between the walls, never moves it down, and moves it at
      most `Speed * dt`. */
  lemma MoveUpKeepsPaddleInCourt(posY: real, height: real, dt: real, b: Bounds)
    requires dt >= 0.0 && InCourt(posY, height, b)
    ensures InCourt(MovedUp(posY, dt, b.upper), height, b)
    ensures posY - Speed * dt <= MovedUp(posY, dt, b.upper) <= posY
  {
  }

  /** The mirror image of MoveUpKeepsPaddleInCourt for moving down. */
  lemma MoveDownKeepsPaddleInCourt(posY: real, height: real, dt: real, b: Bounds)
    requires dt >= 0.0 && InCourt(posY, height, b)
    ensures InCourt(MovedDown(posY, height, dt, b.lower), height, b)
    ensures posY <= MovedDown(posY, height, dt, b.lower) <= posY + Speed * dt
  {
  }

  class Paddle {
    var posX: real
    var posY: real
    const width: real
    const height: real
    /** The slot whose colour the paddle is drawn in. */
    const slot: int
    const startPosX: real
    const startPosY: real

    constructor (posX: real, posY: real, width: real, height: real, slot: int)
      ensures this.posX == posX && this.posY == posY
      ensures this.width == width && this.height == height && this.slot == slot
      ensures startPosX == posX && startPosY == posY
    {
      this.posX := posX;
      this.posY := posY;
      this.width := width;
      this.height := height;
      this.slot := slot;
      startPosX := posX;
      startPosY := posY;
    }

    function CollisionBox(): Rectangle
      reads this
    {
      Rectangle(posX, posY, width, height)
    }

    /** `moveUp`: only `posY` changes, and only the top edge is clamped. */
    method MoveUp(dt: real, b: Bounds)
      modifies this`posY
      ensures posY == MovedUp(old(posY), dt, b.upper)
    {
      posY := posY - Speed * dt;
      if posY < b.upper {
        posY := b.upper;
      }
    }

    /** `moveDown`: only `posY` changes, and only the bottom edge is clamped. */
    method MoveDown(dt: real, b: Bounds)
      modifies this`posY
      ensures posY == MovedDown(old(posY), height, dt, b.lower)
    {
      posY := posY + Speed * dt;
      if posY + height > b.lower {
        posY := b.lower - height;
      }
    }

    /** `reset`: back to the position the paddle was built at. */
    method Reset()
      modifies this`posX, this`posY
      ensures posX == startPosX && posY == startPosY
    {
      posX := startPosX;
      posY := startPosY;
    }
  }
}
