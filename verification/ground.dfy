/** The ground strip: one image drawn twice side by side and scrolled left,
    with its offset wrapped back to 0 once the first copy has left the screen. */
module Grounds {

  /** The offset after the wrap check of `draw`: back to 0 once the first
      tile is more than a full width off the left edge. */
  function Wrapped(x: real, width: real): (r: real)
    requires width >= 0.0
    ensures r >= -width
    ensures r == x || r == 0.0
    ensures x >= -width ==> r == x
    ensures x <= 0.0 ==> -width <= r <= 0.0
  {
    if x < -width then 0.0 else x
  }

  /** How far the ground scrolls in one frame. */
  function Scroll(gameSpeed: real, frameTimeDelta: real, speed: real, scaleRatio: real): real {
    gameSpeed * frameTimeDelta * speed * scaleRatio
  }

  /** A frame of scrolling followed by a draw keeps the offset within one tile
      width of the origin, whatever the step. */
  lemma ScrollThenWrapStaysInTile(x: real, width: real, step: real)
    requires width >= 0.0
    requires -width <= x <= 0.0
    requires step >= 0.0
    ensures -width <= Wrapped(x - step, width) <= 0.0
  {
  }

  class Ground {
    const width: real
    const height: real
    const speed: real
    const scaleRatio: real
    const y: real
    var x: real

    constructor (canvasHeight: real, width: real, height: real, speed: real, scaleRatio: real)
      ensures this.width == width && this.height == height
      ensures this.speed == speed && this.scaleRatio == scaleRatio
      ensures x == 0.0
      ensures y == canvasHeight - height
    {
      this.width := width;
      this.height := height;
      this.speed := speed;
      this.scaleRatio := scaleRatio;
      x := 0.0;
      y := canvasHeight - height;
    }

    /** The two tiles are placed at the offset before the wrap and one width
        to its right; then the offset wraps. */
    method Draw() returns (firstTileX: real, secondTileX: real)
      requires width >= 0.0
      modifies this`x
      ensures firstTileX == old(x) && secondTileX == old(x) + width
      ensures x == Wrapped(old(x), width)
      ensures x != old(x) <==> old(x) < -width && old(x) != 0.0
    {
      firstTileX := x;
      secondTileX := x + width;
      if x < -width {
        x := 0.0;
      }
    }

    /** Scrolls the ground left; nothing else changes. */
    method Update(gameSpeed: real, frameTimeDelta: real)
      modifies this`x
      ensures x == old(x) - Scroll(gameSpeed, frameTimeDelta, speed, scaleRatio)
    {
      x := x - gameSpeed * frameTimeDelta * speed * scaleRatio;
    }

    method Reset()
      modifies this`x
      ensures x == 0.0
    {
      x := 0.0;
    }
  }
}
