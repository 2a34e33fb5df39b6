/** A single obstacle: a box that only ever moves left, and the forgiving
    axis-aligned bounding-box test used to decide whether it hits a sprite. */
module Obstacles {

  /** Both boxes are shrunk by this factor before the overlap test, so that
      near misses are forgiven. */
  const AdjustBy: real := 1.25

  /** The "positioned sprite" shape shared by the player and the obstacles:
      top-left corner and size. */
  datatype Box = Box(x: real, y: real, width: real, height: real)

  /** An image handle (the file the image is loaded from). */
  type Image = string

  /** The overlap test of an obstacle `o` against a `sprite`: four strict
      inequalities over the boxes shrunk by AdjustBy. */
  predicate Overlap(o: Box, sprite: Box) {
    sprite.x < o.x + o.width / AdjustBy &&
    sprite.x + sprite.width / AdjustBy > o.x &&
    sprite.y < o.y + o.height / AdjustBy &&
    sprite.y + sprite.height / AdjustBy > o.y
  }

  /** The box a sprite occupies once it is shrunk by AdjustBy (top-left corner kept). */
  function Shrunk(b: Box): (r: Box)
    ensures r.x == b.x && r.y == b.y
    ensures b.width >= 0.0 ==> 0.0 <= r.width <= b.width
    ensures b.height >= 0.0 ==> 0.0 <= r.height <= b.height
  {
    Box(b.x, b.y, b.width / AdjustBy, b.height / AdjustBy)
  }

  /** The half-open intervals [lo1, lo1 + len1) and [lo2, lo2 + len2) share a point. */
  predicate IntervalsMeet(lo1: real, len1: real, lo2: real, len2: real) {
    lo1 < lo2 + len2 && lo2 < lo1 + len1
  }

  /** Reference reading of the test: the shrunk boxes meet on both axes. */
  lemma OverlapIsShrunkIntersection(o: Box, sprite: Box)
    ensures Overlap(o, sprite) <==>
      IntervalsMeet(Shrunk(o).x, Shrunk(o).width, Shrunk(sprite).x, Shrunk(sprite).width) &&
      IntervalsMeet(Shrunk(o).y, Shrunk(o).height, Shrunk(sprite).y, Shrunk(sprite).height)
  {
  }

  /** Swapping obstacle and sprite gives the same answer: both are shrunk alike. */
  lemma OverlapSymmetric(a: Box, b: Box)
    ensures Overlap(a, b) <==> Overlap(b, a)
  {
  }

  /** Boxes whose shrunk extents are disjoint on x never collide. */
  lemma SeparatedOnXMisses(o: Box, sprite: Box)
    requires sprite.x >= o.x + o.width / AdjustBy || sprite.x + sprite.width / AdjustBy <= o.x
    ensures !Overlap(o, sprite)
  {
  }

  /** Boxes whose shrunk extents are disjoint on y never collide. */
  lemma SeparatedOnYMisses(o: Box, sprite: Box)
    requires sprite.y >= o.y + o.height / AdjustBy || sprite.y + sprite.height / AdjustBy <= o.y
    ensures !Overlap(o, sprite)
  {
  }

  /** The value of an obstacle: everything it holds. */
  datatype ObstacleView = ObstacleView(x: real, y: real, width: real, height: real, image: Image)
  {
    function Bounds(): Box { Box(x, y, width, height) }
  }

  /** How far an obstacle moves left in one frame. */
  function Displacement(speed: real, gameSpeed: real, frameTimeDelta: real, scaleRatio: real): (d: real)
    ensures speed >= 0.0 && gameSpeed >= 0.0 && frameTimeDelta >= 0.0 && scaleRatio >= 0.0 ==> d >= 0.0
  {
    speed * gameSpeed * frameTimeDelta * scaleRatio
  }

  /** After `k` frames of constant displacement `d > 0`, an obstacle at `x`
      has fully left the screen (its right edge is at or before 0) for some
      finite `k`. */
  lemma EventuallyLeaves(x: real, width: real, d: real) returns (k: nat)
    requires d > 0.0
    ensures x - (k as real) * d <= -width
  {
    if x + width <= 0.0 {
      k := 0;
    } else {
      var q := (x + width) / d;
      k := q.Floor + 1;
      assert (k as real) >= q;
      assert (k as real) * d >= q * d;
      assert q * d == x + width;
    }
  }

  /** An obstacle on screen. Only `x` changes after construction. */
  class Obstacle {
    var x: real
    const y: real
    const width: real
    const height: real
    const image: Image

    constructor (x: real, y: real, width: real, height: real, image: Image)
      ensures View() == ObstacleView(x, y, width, height, image)
    {
      this.x := x;
      this.y := y;
      this.width := width;
      this.height := height;
      this.image := image;
    }

    function View(): ObstacleView
      reads this
    {
      ObstacleView(x, y, width, height, image)
    }

    /** Moves the obstacle left; nothing else about it changes. */
    method Update(speed: real, gameSpeed: real, frameTimeDelta: real, scaleRatio: real)
      modifies this`x
      ensures x == old(x) - Displacement(speed, gameSpeed, frameTimeDelta, scaleRatio)
      ensures View() == old(View()).(x := x)
      ensures speed >= 0.0 && gameSpeed >= 0.0 && frameTimeDelta >= 0.0 && scaleRatio >= 0.0 ==> x <= old(x)
    {
      x := x - speed * gameSpeed * frameTimeDelta * scaleRatio;
    }

    /** Whether this obstacle hits `sprite`. */
    predicate CollideWith(sprite: Box)
      reads this
      ensures CollideWith(sprite) <==>
                IntervalsMeet(Shrunk(View().Bounds()).x, Shrunk(View().Bounds()).width, Shrunk(sprite).x, Shrunk(sprite).width) &&
                IntervalsMeet(Shrunk(View().Bounds()).y, Shrunk(View().Bounds()).height, Shrunk(sprite).y, Shrunk(sprite).height)
    {
      Overlap(View().Bounds(), sprite)
    }
  }
}
