/** Board geometry, bird kinematics and the bird/pipe collision test of
    app/Game.js. Geometry is integral; the bird's height and velocity carry
    the 0.4 gravity and are exact reals (no IEEE rounding). */
module Physics {
  import opened Wrappers

  const BoardWidth: int := 360
  const BoardHeight: int := 640
  const Gravity: real := 0.4
  const JumpVelocity: real := -8.0
  const PipeWidth: int := 52
  const GameSpeed: int := -2

  /** The bird's lane: it is drawn at a fixed x and never moves sideways. */
  const BirdX: int := BoardWidth / 8
  const BirdWidth: int := 34
  const BirdHeight: int := 24

  /** The bird's mutable part: its top edge (0 is the top of the board, y
      grows downward) and its vertical velocity. */
  datatype Bird = Bird(y: real, velocityY: real)

  /** Height of the top pipe and of the bottom pipe of one pair. */
  datatype Opening = Opening(top: int, bottom: int)

  /** A pipe pair. `opening` is None when the pair was spawned from a table
      index past the end of the height table: its heights are then
      `undefined`/`NaN` and every comparison against them is false. */
  datatype Pipe = Pipe(x: int, opening: Option<Opening>, scored: bool)

  /** One animation frame of free flight: gravity is added to the velocity,
      the velocity to the height, and the height is clamped at the top of the
      board; the velocity is never clamped. */
  function Step(b: Bird): (r: Bird)
    ensures r.velocityY == b.velocityY + Gravity
    ensures r.y >= 0.0
    ensures r.y >= b.y + r.velocityY
    ensures r.y == b.y + r.velocityY || r.y == 0.0
  {
    var v := b.velocityY + Gravity;
    Bird(if b.y + v >= 0.0 then b.y + v else 0.0, v)
  }

  /** The Space key while playing: the velocity is replaced, not added to. */
  function ApplyJump(b: Bird): (r: Bird)
    ensures r.velocityY == JumpVelocity
    ensures r.y == b.y
  {
    b.(velocityY := JumpVelocity)
  }

  /** The bird after `n` frames with no jump. */
  function Fall(b: Bird, n: nat): Bird
  {
    if n == 0 then b else Step(Fall(b, n - 1))
  }

  /** A jump forgets the previous velocity entirely. */
  lemma JumpIgnoresVelocity(b1: Bird, b2: Bird)
    requires b1.y == b2.y
    ensures ApplyJump(b1) == ApplyJump(b2)
    ensures ApplyJump(ApplyJump(b1)) == ApplyJump(b1)
  {
  }

  /** After `n` frames without a jump the velocity has grown by exactly
      `n * gravity`, whatever the floor clamp did to the height. */
  lemma {:induction false} FallVelocity(b: Bird, n: nat)
    ensures Fall(b, n).velocityY == b.velocityY + (n as real) * Gravity
  {
    if n > 0 {
      FallVelocity(b, n - 1);
    }
  }

  /** A bird falling from rest or moving down never touches the clamp, so
      its height follows the discrete kinematics sum. */
  lemma {:induction false} FallHeight(b: Bird, n: nat)
    requires b.y >= 0.0 && b.velocityY >= 0.0
    ensures Fall(b, n).y == b.y + (n as real) * b.velocityY + Gravity * ((n * (n + 1)) as real) / 2.0
  {
    if n > 0 {
      FallHeight(b, n - 1);
      FallVelocity(b, n - 1);
      var prev := Fall(b, n - 1);
      assert prev.velocityY + Gravity == b.velocityY + (n as real) * Gravity;
      assert ((n - 1) * n + 2 * n) == n * (n + 1);
    }
  }

  /** From the centre of the board at rest, five frames give velocity 2.0
      and height 320 + 0.4 * (1 + 2 + 3 + 4 + 5) = 326. */
  lemma FiveFramesFromRest()
    ensures Fall(Bird(320.0, 0.0), 5) == Bird(326.0, 2.0)
  {
    FallVelocity(Bird(320.0, 0.0), 5);
    FallHeight(Bird(320.0, 0.0), 5);
  }

  /** The pipe's horizontal span overlaps the bird's. */
  predicate InLane(p: Pipe)
  {
    BirdX < p.x + PipeWidth && BirdX + BirdWidth > p.x
  }

  /** Some part of the bird is above the bottom of the top pipe or below the
      top of the bottom pipe. */
  predicate OutsideGap(b: Bird, p: Pipe)
  {
    match p.opening
    case None => false
    case Some(o) =>
      b.y < o.top as real || b.y + BirdHeight as real > (BoardHeight - o.bottom) as real
  }

  /** The bird hits pipe pair `p`. */
  predicate HitsPipe(b: Bird, p: Pipe)
  {
    InLane(p) && OutsideGap(b, p)
  }

  /** The reference meaning of `checkCollision`: some pipe is hit. */
  predicate Collides(b: Bird, pipes: seq<Pipe>)
  {
    exists i :: 0 <= i < |pipes| && HitsPipe(b, pipes[i])
  }

  /** `checkCollision`: scans the pipes in order and stops at the first hit. */
  method CheckCollision(b: Bird, pipes: seq<Pipe>) returns (hit: bool)
    ensures hit == Collides(b, pipes)
    ensures pipes == [] ==> !hit
  {
    var k := 0;
    while k < |pipes|
      invariant 0 <= k <= |pipes|
      invariant forall j :: 0 <= j < k ==> !HitsPipe(b, pipes[j])
    {
      var p := pipes[k];
      if BirdX < p.x + PipeWidth && BirdX + BirdWidth > p.x && OutsideGap(b, p) {
        return true;
      }
      k := k + 1;
    }
    return false;
  }

  /** The lane test in plain numbers: the bird's x-span is [45, 79], so a
      52-wide pipe overlaps it exactly while -7 < x < 79. */
  lemma LaneWindow(p: Pipe)
    ensures InLane(p) <==> -7 < p.x < 79
  {
  }

  /** For a pair whose heights leave a gap of `gap` rows, the bird misses it
      vertically exactly when its whole body lies inside the gap. */
  lemma InsideGap(b: Bird, p: Pipe, gap: int)
    requires p.opening.Some?
    requires p.opening.value.top + gap + p.opening.value.bottom == BoardHeight
    ensures !OutsideGap(b, p) <==>
      p.opening.value.top as real <= b.y && b.y + BirdHeight as real <= (p.opening.value.top + gap) as real
  {
  }

  /** A pair with undefined heights can never be hit. */
  lemma UndefinedPipeIsHarmless(b: Bird, p: Pipe)
    requires p.opening.None?
    ensures !HitsPipe(b, p)
  {
  }
}
