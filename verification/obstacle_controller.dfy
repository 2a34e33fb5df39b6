/** The obstacle spawner: a countdown to the next spawn, the live obstacles in
    spawn order, and the catalog new obstacles are drawn from. */
module ObstacleControllers {
  import opened Obstacles

  const IntervalMin: int := 500
  const IntervalMax: int := 2000

  /** One kind of obstacle the controller may spawn: its image and scaled size. */
  datatype CatalogEntry = CatalogEntry(image: Image, width: real, height: real)

  /** `Math.floor(draw * (max - min + 1) + min)` for a draw of `Math.random()`,
      which lies in [0, 1). */
  function RandomNumber(min: int, max: int, draw: real): (r: int)
    requires min <= max
    requires 0.0 <= draw < 1.0
    ensures min <= r <= max
  {
    var span := (max - min + 1) as real;
    assert 0.0 <= draw * span < span by {
      assert span - draw * span == (1.0 - draw) * span;
    }
    (draw * span + min as real).Floor
  }

  /** Every integer of [min, max] is the outcome of some draw. */
  lemma RandomNumberReachesEvery(min: int, max: int, k: int) returns (draw: real)
    requires min <= k <= max
    ensures 0.0 <= draw < 1.0
    ensures RandomNumber(min, max, draw) == k
  {
    var span := (max - min + 1) as real;
    draw := (k - min) as real / span;
    assert draw * span == (k - min) as real;
  }

  /** Where a new obstacle of kind `e` appears: 1.5 canvas widths to the right,
      standing on the bottom edge of the canvas. */
  function SpawnView(canvasWidth: real, canvasHeight: real, e: CatalogEntry): ObstacleView {
    ObstacleView(canvasWidth * 1.5, canvasHeight - e.height, e.width, e.height, e.image)
  }

  /** Every obstacle moved left by `d`. */
  function Moved(vs: seq<ObstacleView>, d: real): seq<ObstacleView> {
    seq(|vs|, i requires 0 <= i < |vs| => vs[i].(x := vs[i].x - d))
  }

  /** An obstacle that has not yet fully passed the left edge. */
  predicate OnScreen(v: ObstacleView) {
    v.x > -v.width
  }

  /** The obstacles that stay on screen, in their original order. */
  function Survivors(vs: seq<ObstacleView>): (r: seq<ObstacleView>)
    ensures |r| <= |vs|
    ensures forall i :: 0 <= i < |r| ==> OnScreen(r[i])
    ensures forall v :: v in r <==> v in vs && OnScreen(v)
  {
    if vs == [] then []
    else (if OnScreen(vs[0]) then [vs[0]] else []) + Survivors(vs[1..])
  }

  /** The filter keeps every on-screen obstacle as many times as it occurs,
      and no off-screen one. */
  lemma {:induction false} SurvivorsCount(vs: seq<ObstacleView>)
    ensures forall v :: multiset(Survivors(vs))[v] == if OnScreen(v) then multiset(vs)[v] else 0
  {
    if vs != [] {
      SurvivorsCount(vs[1..]);
      assert vs == [vs[0]] + vs[1..];
    }
  }

  /** `r` can be obtained from `s` by deleting elements. */
  predicate SubsequenceOf<T(==)>(r: seq<T>, s: seq<T>)
    decreases |s|
  {
    r == [] || (s != [] && ((r[0] == s[0] && SubsequenceOf(r[1..], s[1..])) || SubsequenceOf(r, s[1..])))
  }

  /** The filter keeps the survivors in their relative order. */
  lemma {:induction false} SurvivorsKeepOrder(vs: seq<ObstacleView>)
    ensures SubsequenceOf(Survivors(vs), vs)
  {
    if vs != [] {
      SurvivorsKeepOrder(vs[1..]);
      if OnScreen(vs[0]) {
        assert Survivors(vs) == [vs[0]] + Survivors(vs[1..]);
      } else {
        assert Survivors(vs) == Survivors(vs[1..]);
      }
    }
  }

  /** The filter distributes over concatenation. */
  lemma {:induction false} SurvivorsAppend(a: seq<ObstacleView>, b: seq<ObstacleView>)
    ensures Survivors(a + b) == Survivors(a) + Survivors(b)
  {
    if a == [] {
      assert a + b == b;
    } else {
      assert (a + b)[1..] == a[1..] + b;
      SurvivorsAppend(a[1..], b);
    }
  }

  /** A frame changes the number of live obstacles by spawning at most one and
      removing those that left the screen. */
  lemma FrameCount(live: seq<ObstacleView>, spawned: seq<ObstacleView>, d: real)
    requires |spawned| <= 1
    ensures |Survivors(Moved(live + spawned, d))| <= |live| + 1
  {
  }

  /** Obstacles that are already off screen and keep moving left stay gone:
      after a frame with `d >= 0`, every survivor was on screen before it. */
  lemma {:induction false} SurvivorsWereOnScreen(vs: seq<ObstacleView>, d: real)
    requires d >= 0.0
    ensures forall i :: 0 <= i < |vs| && !OnScreen(vs[i]) ==> vs[i].(x := vs[i].x - d) !in Survivors(Moved(vs, d))
  {
  }

  predicate Distinct(os: seq<Obstacle>) {
    forall i, j :: 0 <= i < j < |os| ==> os[i] != os[j]
  }

  /** The values of a list of obstacle objects. */
  function ViewsOf(os: seq<Obstacle>): seq<ObstacleView>
    reads os
  {
    seq(|os|, i requires 0 <= i < |os| reads os => os[i].View())
  }

  /** The filter of the source, on the obstacle objects. */
  function Visible(os: seq<Obstacle>): (r: seq<Obstacle>)
    reads os
    ensures forall o :: o in r ==> o in os
  {
    if os == [] then []
    else (if os[0].x > -os[0].width then [os[0]] else []) + Visible(os[1..])
  }

  lemma {:induction false} VisibleViews(os: seq<Obstacle>)
    ensures ViewsOf(Visible(os)) == Survivors(ViewsOf(os))
  {
    if os != [] {
      VisibleViews(os[1..]);
      assert ViewsOf(os) == [os[0].View()] + ViewsOf(os[1..]);
      var head := if os[0].x > -os[0].width then [os[0]] else [];
      assert Visible(os) == head + Visible(os[1..]);
      assert ViewsOf(head + Visible(os[1..])) == ViewsOf(head) + ViewsOf(Visible(os[1..]));
      SurvivorsAppend([os[0].View()], ViewsOf(os[1..]));
    }
  }

  lemma {:induction false} VisibleDistinct(os: seq<Obstacle>)
    requires Distinct(os)
    ensures Distinct(Visible(os))
  {
    if os != [] {
      VisibleDistinct(os[1..]);
      var rest := Visible(os[1..]);
      if os[0].x > -os[0].width {
        assert os[0] !in os[1..];
        assert os[0] !in rest;
        assert Visible(os) == [os[0]] + rest;
      }
    }
  }

  /** `some` over the obstacle list: the first obstacle that hits `sprite`
      ends the search. */
  predicate AnyCollides(os: seq<Obstacle>, sprite: Box)
    reads os
    ensures AnyCollides(os, sprite) <==> exists i :: 0 <= i < |os| && os[i].CollideWith(sprite)
  {
    os != [] && (os[0].CollideWith(sprite) || AnyCollides(os[1..], sprite))
  }

  class ObstacleController {
    const canvasWidth: real
    const canvasHeight: real
    const obstacleImages: seq<CatalogEntry>
    const scaleRatio: real
    const speed: real

    var nextObstacleInterval: real
    var obstacles: seq<Obstacle>

    ghost predicate Valid()
      reads this
    {
      |obstacleImages| > 0 && Distinct(obstacles)
    }

    /** The live obstacles as values, in spawn order. */
    function Views(): seq<ObstacleView>
      reads this, obstacles
    {
      ViewsOf(obstacles)
    }

    /** The obstacle a spawn with catalog draw `indexDraw` creates. */
    function SpawnFor(indexDraw: real): ObstacleView
      requires |obstacleImages| > 0
      requires 0.0 <= indexDraw < 1.0
    {
      SpawnView(canvasWidth, canvasHeight, obstacleImages[RandomNumber(0, |obstacleImages| - 1, indexDraw)])
    }

    constructor (canvasWidth: real, canvasHeight: real, obstacleImages: seq<CatalogEntry>,
                 scaleRatio: real, speed: real, intervalDraw: real)
      requires |obstacleImages| > 0
      requires 0.0 <= intervalDraw < 1.0
      ensures Valid()
      ensures this.canvasWidth == canvasWidth && this.canvasHeight == canvasHeight
      ensures this.obstacleImages == obstacleImages
      ensures this.scaleRatio == scaleRatio && this.speed == speed
      ensures obstacles == []
      ensures nextObstacleInterval == RandomNumber(IntervalMin, IntervalMax, intervalDraw) as real
      ensures IntervalMin as real <= nextObstacleInterval <= IntervalMax as real
    {
      this.canvasWidth := canvasWidth;
      this.canvasHeight := canvasHeight;
      this.obstacleImages := obstacleImages;
      this.scaleRatio := scaleRatio;
      this.speed := speed;
      obstacles := [];
      new;
      SetNextObstacleTime(intervalDraw);
    }

    /** Redraws the countdown from [IntervalMin, IntervalMax]. */
    method SetNextObstacleTime(intervalDraw: real)
      requires 0.0 <= intervalDraw < 1.0
      modifies this`nextObstacleInterval
      ensures nextObstacleInterval == RandomNumber(IntervalMin, IntervalMax, intervalDraw) as real
      ensures IntervalMin as real <= nextObstacleInterval <= IntervalMax as real
    {
      var num := RandomNumber(IntervalMin, IntervalMax, intervalDraw);
      nextObstacleInterval := num as real;
    }

    /** Appends one new obstacle of a randomly chosen kind. */
    method CreateObstacle(indexDraw: real)
      requires Valid()
      requires 0.0 <= indexDraw < 1.0
      modifies this`obstacles
      ensures Valid()
      ensures |obstacles| == |old(obstacles)| + 1
      ensures obstacles[..|old(obstacles)|] == old(obstacles)
      ensures fresh(obstacles[|old(obstacles)|])
      ensures Views() == old(Views()) + [SpawnFor(indexDraw)]
    {
      var index := RandomNumber(0, |obstacleImages| - 1, indexDraw);
      var obstacleImage := obstacleImages[index];
      var x := canvasWidth * 1.5;
      var y := canvasHeight - obstacleImage.height;
      var obstacle := new Obstacle(x, y, obstacleImage.width, obstacleImage.height, obstacleImage.image);
      obstacles := obstacles + [obstacle];
      assert obstacles[..|old(obstacles)|] == old(obstacles);
      assert ViewsOf(obstacles) == ViewsOf(old(obstacles)) + [obstacle.View()];
    }

    /** One frame: spawn if the countdown ran out, count down, move every
        obstacle (the new one too), then drop those that left the screen. */
    method Update(gameSpeed: real, frameTimeDelta: real, intervalDraw: real, indexDraw: real)
      requires Valid()
      requires 0.0 <= intervalDraw < 1.0 && 0.0 <= indexDraw < 1.0
      modifies this, obstacles
      ensures Valid()
      ensures nextObstacleInterval ==
        (if old(nextObstacleInterval) <= 0.0
         then RandomNumber(IntervalMin, IntervalMax, intervalDraw) as real
         else old(nextObstacleInterval)) - frameTimeDelta
      ensures Views() ==
        Survivors(Moved(old(Views()) + (if old(nextObstacleInterval) <= 0.0 then [SpawnFor(indexDraw)] else []),
                        Displacement(speed, gameSpeed, frameTimeDelta, scaleRatio)))
    {
      ghost var spawned: seq<ObstacleView> := [];
      if nextObstacleInterval <= 0.0 {
        CreateObstacle(indexDraw);
        spawned := [SpawnFor(indexDraw)];
        ghost var grown := Views();
        SetNextObstacleTime(intervalDraw);
        assert Views() == grown;
      }
      nextObstacleInterval := nextObstacleInterval - frameTimeDelta;
      ghost var due := Views();
      assert due == old(Views()) + spawned;
      MoveAll(gameSpeed, frameTimeDelta);
      ghost var moved := Views();
      RemovePassed();
    }

    /** The `forEach` of the source: every live obstacle moves left once. */
    method MoveAll(gameSpeed: real, frameTimeDelta: real)
      requires Valid()
      modifies obstacles
      ensures Valid()
      ensures Views() == Moved(old(Views()), Displacement(speed, gameSpeed, frameTimeDelta, scaleRatio))
    {
      ghost var before := Views();
      ghost var d := Displacement(speed, gameSpeed, frameTimeDelta, scaleRatio);
      var i := 0;
      while i < |obstacles|
        invariant 0 <= i <= |obstacles|
        invariant |before| == |obstacles|
        invariant forall j :: 0 <= j < i ==> obstacles[j].View() == before[j].(x := before[j].x - d)
        invariant forall j :: i <= j < |obstacles| ==> obstacles[j].View() == before[j]
      {
        obstacles[i].Update(speed, gameSpeed, frameTimeDelta, scaleRatio);
        i := i + 1;
      }
      assert ViewsOf(obstacles) == Moved(before, d);
    }

    /** The `filter` of the source: keeps the obstacles not yet past the left edge. */
    method RemovePassed()
      requires Valid()
      modifies this`obstacles
      ensures Valid()
      ensures Views() == Survivors(old(Views()))
    {
      VisibleViews(obstacles);
      VisibleDistinct(obstacles);
      obstacles := Visible(obstacles);
    }

    /** Whether any live obstacle hits `sprite`. */
    predicate CollideWith(sprite: Box)
      reads this, obstacles
      ensures CollideWith(sprite) <==> exists i :: 0 <= i < |Views()| && Overlap(Views()[i].Bounds(), sprite)
      ensures obstacles == [] ==> !CollideWith(sprite)
    {
      assert forall i :: 0 <= i < |obstacles| ==> Views()[i] == obstacles[i].View();
      AnyCollides(obstacles, sprite)
    }

    /** Clears the live obstacles; the countdown is kept. */
    method Reset()
      requires Valid()
      modifies this`obstacles
      ensures Valid()
      ensures obstacles == [] && Views() == []
      ensures nextObstacleInterval == old(nextObstacleInterval)
    {
      obstacles := [];
    }
  }
}
