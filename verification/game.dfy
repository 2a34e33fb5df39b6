/** The game loop: the session flags, the game speed, the frame clock and the
    obstacle configuration, advanced once per animation frame.

    The components (ground, obstacles, player, score) are not held here: a
    frame reports, in order, the calls it makes on them (`Effect`), and takes
    the two answers it needs from them as inputs: the score as `getScore`
    returns it when the speed is updated, and whether `collideWith` found a
    hit after the components moved. */
module Game {
  import opened ObstacleControllers

  datatype Option<T> = None | Some(value: T)

  const GameSpeedStart: real := 1.0
  const GameSpeedIncrement: real := 0.00001
  const GameWidth: real := 800.0
  const GameHeight: real := 200.0
  const CutsceneInitScore: real := 25.0
  /** Delays, in milliseconds, before the restart key is listened for. */
  const GameOverRestartDelay: int := 500
  const CutsceneRestartDelay: int := 5000
  /** Every catalog entry is built at this design size, whatever its configuration says. */
  const ObstacleWidth: real := 50.0
  const ObstacleHeight: real := 75.0
  const CutsceneImages: seq<string> := ["images/obstacle_1.png", "images/fence.png"]

  // ---------------------------------------------------------------------
  // Screen scale

  function Min(a: real, b: real): real { if a <= b then a else b }

  /** For a positive divisor, comparing a quotient with `k` is comparing the
      dividend with `k` times the divisor. */
  lemma QuotientBelow(a: real, b: real, k: real)
    requires b > 0.0
    ensures a / b < k <==> a < k * b
  {
    var q := a / b;
    assert a == q * b;
    if q < k {
      assert (k - q) * b > 0.0;
    } else {
      assert (q - k) * b >= 0.0;
    }
  }

  /** The factor that fits the 800 x 200 design area into the viewport,
      whose size is the smaller of the window's and the document's. */
  function ScaleRatio(innerWidth: real, innerHeight: real, clientWidth: real, clientHeight: real): (r: real)
    requires innerWidth > 0.0 && innerHeight > 0.0 && clientWidth > 0.0 && clientHeight > 0.0
    ensures r > 0.0
    ensures r == Min(Min(innerWidth, clientWidth) / GameWidth, Min(innerHeight, clientHeight) / GameHeight)
    ensures GameWidth * r <= Min(innerWidth, clientWidth) && GameHeight * r <= Min(innerHeight, clientHeight)
    ensures GameWidth * r == Min(innerWidth, clientWidth) || GameHeight * r == Min(innerHeight, clientHeight)
  {
    var screenHeight := Min(innerHeight, clientHeight);
    var screenWidth := Min(innerWidth, clientWidth);
    QuotientBelow(screenWidth, screenHeight, GameWidth / GameHeight);
    if screenWidth / screenHeight < GameWidth / GameHeight then
      screenWidth / GameWidth
    else
      screenHeight / GameHeight
  }

  // ---------------------------------------------------------------------
  // Obstacle configuration

  /** One configured obstacle kind: a design size and an image file. */
  datatype ConfigEntry = ConfigEntry(width: real, height: real, image: string)

  const InitialConfig: seq<ConfigEntry> := [ConfigEntry(ObstacleWidth, ObstacleHeight, "images/obstacle_1.png")]

  /** The configuration after `addObstacle(images)`: one entry per image. */
  function WithObstacles(config: seq<ConfigEntry>, images: seq<string>): seq<ConfigEntry> {
    config + seq(|images|, i requires 0 <= i < |images| => ConfigEntry(ObstacleWidth, ObstacleHeight, images[i]))
  }

  /** The catalog `setObstacleImages` hands to a new controller. */
  function ObstacleImages(config: seq<ConfigEntry>, scaleRatio: real): seq<CatalogEntry> {
    seq(|config|, i requires 0 <= i < |config| =>
      CatalogEntry(config[i].image, ObstacleWidth * scaleRatio, ObstacleHeight * scaleRatio))
  }

  // ---------------------------------------------------------------------
  // Loop state and one frame

  datatype LoopState = LoopState(
    prevTime: Option<real>,
    gameSpeed: real,
    gameOver: bool,
    hasAddedEventListenersForRestart: bool,
    waitingToStart: bool,
    isCutscenePlaying: bool,
    cutscenePassed: bool,
    obstacleConfig: seq<ConfigEntry>,
    scaleRatio: real)

  function Initial(scaleRatio: real): LoopState {
    LoopState(None, GameSpeedStart, false, false, true, false, false, InitialConfig, scaleRatio)
  }

  /** A call the loop makes on a component or on the browser. */
  datatype Effect =
    | UpdateGround(gameSpeed: real, frameTimeDelta: real)
    | UpdateObstacles(gameSpeed: real, frameTimeDelta: real)
    | UpdatePlayer(gameSpeed: real, frameTimeDelta: real)
    | UpdateScore(frameTimeDelta: real)
    | ArmRestart(delay: int)
    | RecordHighScore
    | RebuildObstacleController(catalog: seq<CatalogEntry>)
    | ResetGround
    | ResetObstacles
    | ResetScore

  predicate IsComponentUpdate(e: Effect) {
    e.UpdateGround? || e.UpdateObstacles? || e.UpdatePlayer? || e.UpdateScore?
  }

  datatype Outcome = Outcome(next: LoopState, effects: seq<Effect>)

  /** The components move only while the game is neither over, nor waiting
      for its first start, nor showing the cutscene. */
  predicate Running(s: LoopState) {
    !s.gameOver && !s.waitingToStart && !s.isCutscenePlaying
  }

  function ComponentUpdates(gameSpeed: real, frameTimeDelta: real): seq<Effect> {
    [UpdateGround(gameSpeed, frameTimeDelta), UpdateObstacles(gameSpeed, frameTimeDelta),
     UpdatePlayer(gameSpeed, frameTimeDelta), UpdateScore(frameTimeDelta)]
  }

  /** `updateGameSpeed`: speeds up, and starts the cutscene at the score
      threshold unless it has been shown already. */
  function SpeedStep(s: LoopState, frameTimeDelta: real, score: real): LoopState {
    if !s.isCutscenePlaying then
      var s1 := s.(gameSpeed := s.gameSpeed + frameTimeDelta * GameSpeedIncrement);
      if score >= CutsceneInitScore && !s.cutscenePassed then s1.(isCutscenePlaying := true) else s1
    else s
  }

  /** `setupGameReset`: arms the restart key once until the next reset. */
  function ArmOnce(s: LoopState, delay: int): Outcome {
    if !s.hasAddedEventListenersForRestart then
      Outcome(s.(hasAddedEventListenersForRestart := true), [ArmRestart(delay)])
    else
      Outcome(s, [])
  }

  /** The first block of a frame after the first: the components are
      updated, and the game speeds up, only while the game is running. */
  function RunBlock(s: LoopState, frameTimeDelta: real, score: real): Outcome {
    if Running(s) then Outcome(SpeedStep(s, frameTimeDelta, score), ComponentUpdates(s.gameSpeed, frameTimeDelta))
    else Outcome(s, [])
  }

  /** The second block: a collision ends a game that is not over yet, arms
      the restart key and records the high score. */
  function CollisionBlock(s: LoopState, collides: bool): Outcome {
    if !s.gameOver && collides then
      var armed := ArmOnce(s.(gameOver := true), GameOverRestartDelay);
      Outcome(armed.next, armed.effects + [RecordHighScore])
    else Outcome(s, [])
  }

  /** The third block: while the cutscene plays, every frame arms the restart
      key (once), appends the cutscene images to the configuration, rebuilds
      the obstacle controller and marks the cutscene shown. */
  function CutsceneBlock(s: LoopState): Outcome {
    if s.isCutscenePlaying then
      var armed := ArmOnce(s, CutsceneRestartDelay);
      var config := WithObstacles(armed.next.obstacleConfig, CutsceneImages);
      Outcome(armed.next.(obstacleConfig := config, cutscenePassed := true),
              armed.effects + [RebuildObstacleController(ObstacleImages(config, s.scaleRatio))])
    else Outcome(s, [])
  }

  /** One call of `gameLoop(currentTime)`. */
  function Tick(s: LoopState, currentTime: real, score: real, collides: bool): Outcome {
    if s.prevTime.None? then
      Outcome(s.(prevTime := Some(currentTime)), [])
    else
      var updated := RunBlock(s.(prevTime := Some(currentTime)), currentTime - s.prevTime.value, score);
      var ended := CollisionBlock(updated.next, collides);
      var shown := CutsceneBlock(ended.next);
      Outcome(shown.next, updated.effects + ended.effects + shown.effects)
  }

  /** `reset`: a new round. The cutscene flag, the clock and the obstacle
      configuration survive it. */
  function NewRound(s: LoopState): Outcome {
    Outcome(s.(hasAddedEventListenersForRestart := false, gameOver := false, waitingToStart := false,
               isCutscenePlaying := false, gameSpeed := GameSpeedStart),
            [ResetGround, ResetObstacles, ResetScore])
  }

  /** How often an effect list records the high score. */
  function HighScores(effects: seq<Effect>): nat
    decreases |effects|
  {
    if effects == [] then 0 else (if effects[0].RecordHighScore? then 1 else 0) + HighScores(effects[1..])
  }

  /** How often an effect list arms the restart key. */
  function Arms(effects: seq<Effect>): nat
    decreases |effects|
  {
    if effects == [] then 0 else (if effects[0].ArmRestart? then 1 else 0) + Arms(effects[1..])
  }

  lemma {:induction false} CountsAdd(a: seq<Effect>, b: seq<Effect>)
    ensures HighScores(a + b) == HighScores(a) + HighScores(b)
    ensures Arms(a + b) == Arms(a) + Arms(b)
    decreases |a|
  {
    if a != [] {
      assert (a + b)[1..] == a[1..] + b;
      CountsAdd(a[1..], b);
    } else {
      assert a + b == b;
    }
  }

  /** Effects that neither record the high score nor arm the restart key count for nothing. */
  lemma {:induction false} QuietEffectsCountNothing(effects: seq<Effect>)
    requires forall i :: 0 <= i < |effects| ==> !effects[i].RecordHighScore? && !effects[i].ArmRestart?
    ensures HighScores(effects) == 0 && Arms(effects) == 0
    decreases |effects|
  {
    if effects != [] {
      QuietEffectsCountNothing(effects[1..]);
    }
  }

  // ---------------------------------------------------------------------
  // Properties of the three blocks

  /** Arming is idempotent: the first call arms and reports it, later ones do nothing. */
  lemma ArmOnceArmsOnce(s: LoopState, delay: int)
    ensures var o := ArmOnce(s, delay);
            o.next.hasAddedEventListenersForRestart &&
            o.next.(hasAddedEventListenersForRestart := s.hasAddedEventListenersForRestart) == s &&
            Arms(o.effects) == (if s.hasAddedEventListenersForRestart then 0 else 1) &&
            HighScores(o.effects) == 0 &&
            (forall e :: e in o.effects ==> !IsComponentUpdate(e))
  {
  }

  lemma RunBlockFacts(s: LoopState, frameTimeDelta: real, score: real)
    ensures var o := RunBlock(s, frameTimeDelta, score);
            o.next.(gameSpeed := s.gameSpeed, isCutscenePlaying := s.isCutscenePlaying) == s &&
            o.next.gameSpeed == (if Running(s) then s.gameSpeed + frameTimeDelta * GameSpeedIncrement else s.gameSpeed) &&
            o.next.isCutscenePlaying ==
              (s.isCutscenePlaying || (Running(s) && score >= CutsceneInitScore && !s.cutscenePassed)) &&
            o.effects == (if Running(s) then ComponentUpdates(s.gameSpeed, frameTimeDelta) else []) &&
            HighScores(o.effects) == 0 && Arms(o.effects) == 0
  {
    QuietEffectsCountNothing(RunBlock(s, frameTimeDelta, score).effects);
  }

  lemma CollisionBlockFacts(s: LoopState, collides: bool)
    ensures var o := CollisionBlock(s, collides);
            var edge := !s.gameOver && collides;
            o.next.(gameOver := s.gameOver, hasAddedEventListenersForRestart := s.hasAddedEventListenersForRestart) == s &&
            o.next.gameOver == (s.gameOver || edge) &&
            o.next.hasAddedEventListenersForRestart == (s.hasAddedEventListenersForRestart || edge) &&
            o.effects == (if edge then (if s.hasAddedEventListenersForRestart then [] else [ArmRestart(GameOverRestartDelay)]) + [RecordHighScore] else []) &&
            HighScores(o.effects) == (if edge then 1 else 0) &&
            Arms(o.effects) == (if edge && !s.hasAddedEventListenersForRestart then 1 else 0) &&
            (forall e :: e in o.effects ==> !IsComponentUpdate(e))
  {
    if !s.gameOver && collides {
      var armed := ArmOnce(s.(gameOver := true), GameOverRestartDelay);
      ArmOnceArmsOnce(s.(gameOver := true), GameOverRestartDelay);
      CountsAdd(armed.effects, [RecordHighScore]);
    }
  }

  lemma CutsceneBlockFacts(s: LoopState)
    ensures var o := CutsceneBlock(s);
            var on := s.isCutscenePlaying;
            o.next.(hasAddedEventListenersForRestart := s.hasAddedEventListenersForRestart,
                    cutscenePassed := s.cutscenePassed, obstacleConfig := s.obstacleConfig) == s &&
            o.next.hasAddedEventListenersForRestart == (s.hasAddedEventListenersForRestart || on) &&
            o.next.cutscenePassed == (s.cutscenePassed || on) &&
            o.next.obstacleConfig == (if on then WithObstacles(s.obstacleConfig, CutsceneImages) else s.obstacleConfig) &&
            (on ==> |o.effects| >= 1 &&
                    o.effects[|o.effects| - 1] == RebuildObstacleController(ObstacleImages(o.next.obstacleConfig, s.scaleRatio))) &&
            (!on ==> o.effects == []) &&
            o.effects == (if on then (if s.hasAddedEventListenersForRestart then [] else [ArmRestart(CutsceneRestartDelay)]) +
                                     [RebuildObstacleController(ObstacleImages(WithObstacles(s.obstacleConfig, CutsceneImages), s.scaleRatio))]
                          else []) &&
            HighScores(o.effects) == 0 &&
            Arms(o.effects) == (if on && !s.hasAddedEventListenersForRestart then 1 else 0) &&
            (forall e :: e in o.effects ==> !IsComponentUpdate(e))
  {
    if s.isCutscenePlaying {
      var armed := ArmOnce(s, CutsceneRestartDelay);
      var config := WithObstacles(armed.next.obstacleConfig, CutsceneImages);
      ArmOnceArmsOnce(s, CutsceneRestartDelay);
      CountsAdd(armed.effects, [RebuildObstacleController(ObstacleImages(config, s.scaleRatio))]);
    }
  }

  /** A later frame is its three blocks in sequence; the counts add up. */
  lemma TickBlocks(s: LoopState, currentTime: real, score: real, collides: bool)
    requires s.prevTime.Some?
    ensures var s0 := s.(prevTime := Some(currentTime));
            var updated := RunBlock(s0, currentTime - s.prevTime.value, score);
            var ended := CollisionBlock(updated.next, collides);
            var shown := CutsceneBlock(ended.next);
            var o := Tick(s, currentTime, score, collides);
            o == Outcome(shown.next, updated.effects + ended.effects + shown.effects) &&
            HighScores(o.effects) == HighScores(updated.effects) + HighScores(ended.effects) + HighScores(shown.effects) &&
            Arms(o.effects) == Arms(updated.effects) + Arms(ended.effects) + Arms(shown.effects)
  {
    var s0 := s.(prevTime := Some(currentTime));
    var updated := RunBlock(s0, currentTime - s.prevTime.value, score);
    var ended := CollisionBlock(updated.next, collides);
    var shown := CutsceneBlock(ended.next);
    RunBlockFacts(s0, currentTime - s.prevTime.value, score);
    CollisionBlockFacts(updated.next, collides);
    CutsceneBlockFacts(ended.next);
    CountsAdd(updated.effects, ended.effects);
    CountsAdd(updated.effects + ended.effects, shown.effects);
  }

  // ---------------------------------------------------------------------
  // Properties of one frame

  /** The first frame only records the clock. */
  lemma FirstTickOnlyRecordsTime(s: LoopState, currentTime: real, score: real, collides: bool)
    requires s.prevTime.None?
    ensures Tick(s, currentTime, score, collides) == Outcome(s.(prevTime := Some(currentTime)), [])
  {
  }

  /** Later frames move the clock on and update the components, in the order
      ground, obstacles, player, score, exactly when the game is running;
      only then does the game speed grow, by the elapsed time times the
      increment. */
  lemma TickUpdatesOnlyWhileRunning(s: LoopState, currentTime: real, score: real, collides: bool)
    requires s.prevTime.Some?
    ensures var o := Tick(s, currentTime, score, collides);
            var frameTimeDelta := currentTime - s.prevTime.value;
            o.next.prevTime == Some(currentTime) &&
            (Running(s) ==>
               |o.effects| >= 4 && o.effects[..4] == ComponentUpdates(s.gameSpeed, frameTimeDelta) &&
               o.next.gameSpeed == s.gameSpeed + frameTimeDelta * GameSpeedIncrement) &&
            (!Running(s) ==>
               (forall e :: e in o.effects ==> !IsComponentUpdate(e)) &&
               o.next.gameSpeed == s.gameSpeed)
  {
    var frameTimeDelta := currentTime - s.prevTime.value;
    var updated := RunBlock(s.(prevTime := Some(currentTime)), frameTimeDelta, score);
    var ended := CollisionBlock(updated.next, collides);
    var shown := CutsceneBlock(ended.next);
    RunBlockFacts(s.(prevTime := Some(currentTime)), frameTimeDelta, score);
    CollisionBlockFacts(updated.next, collides);
    CutsceneBlockFacts(ended.next);
    var effects := updated.effects + ended.effects + shown.effects;
    assert Tick(s, currentTime, score, collides) == Outcome(shown.next, effects);
    if Running(s) {
      assert effects[..4] == updated.effects;
    }
  }

  /** With time moving forward, the game speed never decreases within a round. */
  lemma TickSpeedNeverDecreases(s: LoopState, currentTime: real, score: real, collides: bool)
    requires s.prevTime.Some? ==> currentTime >= s.prevTime.value
    ensures Tick(s, currentTime, score, collides).next.gameSpeed >= s.gameSpeed
  {
    if s.prevTime.Some? {
      TickUpdatesOnlyWhileRunning(s, currentTime, score, collides);
    }
  }

  /** The game-over edge: it fires only on a frame after the first that finds
      a collision while the game is not already over; it records the high
      score exactly once; and once over the game stays over until a reset. */
  lemma TickGameOverEdge(s: LoopState, currentTime: real, score: real, collides: bool)
    ensures var o := Tick(s, currentTime, score, collides);
            var edge := s.prevTime.Some? && !s.gameOver && collides;
            o.next.gameOver == (s.gameOver || edge) &&
            HighScores(o.effects) == (if edge then 1 else 0)
  {
    if s.prevTime.Some? {
      var updated := RunBlock(s.(prevTime := Some(currentTime)), currentTime - s.prevTime.value, score);
      var ended := CollisionBlock(updated.next, collides);
      TickBlocks(s, currentTime, score, collides);
      RunBlockFacts(s.(prevTime := Some(currentTime)), currentTime - s.prevTime.value, score);
      CollisionBlockFacts(updated.next, collides);
      CutsceneBlockFacts(ended.next);
    }
  }

  /** A frame arms the restart key at most once, only when it is not armed
      already, and whatever is armed stays armed. */
  lemma TickArmsOnce(s: LoopState, currentTime: real, score: real, collides: bool)
    ensures var o := Tick(s, currentTime, score, collides);
            (s.hasAddedEventListenersForRestart ==> o.next.hasAddedEventListenersForRestart) &&
            Arms(o.effects) + (if o.next.hasAddedEventListenersForRestart then 0 else 1) ==
            (if s.hasAddedEventListenersForRestart then 0 else 1)
  {
    if s.prevTime.Some? {
      var updated := RunBlock(s.(prevTime := Some(currentTime)), currentTime - s.prevTime.value, score);
      var ended := CollisionBlock(updated.next, collides);
      TickBlocks(s, currentTime, score, collides);
      RunBlockFacts(s.(prevTime := Some(currentTime)), currentTime - s.prevTime.value, score);
      CollisionBlockFacts(updated.next, collides);
      CutsceneBlockFacts(ended.next);
    }
  }

  /** The cutscene starts exactly on a running frame whose score has reached
      the threshold while it has not been shown yet; the same frame marks it
      shown, and once shown it stays shown. */
  lemma TickCutsceneStart(s: LoopState, currentTime: real, score: real, collides: bool)
    ensures var o := Tick(s, currentTime, score, collides);
            ((!s.isCutscenePlaying && o.next.isCutscenePlaying) <==>
             (s.prevTime.Some? && Running(s) && score >= CutsceneInitScore && !s.cutscenePassed)) &&
            (s.prevTime.Some? && o.next.isCutscenePlaying ==> o.next.cutscenePassed) &&
            (s.cutscenePassed ==> o.next.cutscenePassed)
  {
    if s.prevTime.Some? {
      var updated := RunBlock(s.(prevTime := Some(currentTime)), currentTime - s.prevTime.value, score);
      var ended := CollisionBlock(updated.next, collides);
      TickBlocks(s, currentTime, score, collides);
      RunBlockFacts(s.(prevTime := Some(currentTime)), currentTime - s.prevTime.value, score);
      CollisionBlockFacts(updated.next, collides);
      CutsceneBlockFacts(ended.next);
    }
  }

  /** Each frame spent in the cutscene appends one configuration entry per
      cutscene image, all of the fixed design size, and rebuilds the obstacle
      controller last, from a catalog in which every kind has the same scaled
      size. */
  lemma TickCutsceneCatalog(s: LoopState, currentTime: real, score: real, collides: bool)
    requires s.prevTime.Some?
    requires Tick(s, currentTime, score, collides).next.isCutscenePlaying
    ensures var o := Tick(s, currentTime, score, collides);
            o.next.obstacleConfig == s.obstacleConfig + [
              ConfigEntry(ObstacleWidth, ObstacleHeight, CutsceneImages[0]),
              ConfigEntry(ObstacleWidth, ObstacleHeight, CutsceneImages[1])] &&
            |o.effects| >= 1 &&
            o.effects[|o.effects| - 1] == RebuildObstacleController(ObstacleImages(o.next.obstacleConfig, s.scaleRatio)) &&
            |ObstacleImages(o.next.obstacleConfig, s.scaleRatio)| == |s.obstacleConfig| + 2 &&
            forall e :: e in ObstacleImages(o.next.obstacleConfig, s.scaleRatio) ==>
              e.width == ObstacleWidth * s.scaleRatio && e.height == ObstacleHeight * s.scaleRatio
  {
    var updated := RunBlock(s.(prevTime := Some(currentTime)), currentTime - s.prevTime.value, score);
    var ended := CollisionBlock(updated.next, collides);
    var shown := CutsceneBlock(ended.next);
    TickBlocks(s, currentTime, score, collides);
    RunBlockFacts(s.(prevTime := Some(currentTime)), currentTime - s.prevTime.value, score);
    CollisionBlockFacts(updated.next, collides);
    CutsceneBlockFacts(ended.next);
    assert ended.next.isCutscenePlaying;
    assert WithObstacles(s.obstacleConfig, CutsceneImages) == s.obstacleConfig + [
      ConfigEntry(ObstacleWidth, ObstacleHeight, CutsceneImages[0]),
      ConfigEntry(ObstacleWidth, ObstacleHeight, CutsceneImages[1])];
    var effects := updated.effects + ended.effects + shown.effects;
    assert effects[|effects| - 1] == shown.effects[|shown.effects| - 1];
  }

  /** `reset` clears the round's flags and the speed, resets ground,
      obstacles and score in that order, and leaves the cutscene flag, the
      clock and the configuration alone. */
  lemma ResetClearsRound(s: LoopState)
    ensures var o := NewRound(s);
            !o.next.gameOver && !o.next.waitingToStart && !o.next.isCutscenePlaying &&
            !o.next.hasAddedEventListenersForRestart && o.next.gameSpeed == GameSpeedStart &&
            Running(o.next) &&
            o.next.cutscenePassed == s.cutscenePassed && o.next.prevTime == s.prevTime &&
            o.next.obstacleConfig == s.obstacleConfig &&
            o.effects == [ResetGround, ResetObstacles, ResetScore]
  {
  }

  // ---------------------------------------------------------------------
  // Invariants and properties of whole sessions

  /** What holds between frames: the cutscene plays only once marked shown;
      the restart key is armed only in game over or in the cutscene; and the
      configuration is never empty (so no controller gets an empty catalog). */
  predicate Inv(s: LoopState) {
    (s.isCutscenePlaying ==> s.cutscenePassed) &&
    (s.hasAddedEventListenersForRestart ==> s.gameOver || s.isCutscenePlaying) &&
    |s.obstacleConfig| > 0
  }

  lemma InitialInv(scaleRatio: real)
    ensures Inv(Initial(scaleRatio))
  {
  }

  lemma TickKeepsInv(s: LoopState, currentTime: real, score: real, collides: bool)
    requires Inv(s)
    ensures Inv(Tick(s, currentTime, score, collides).next)
  {
    if s.prevTime.Some? {
      var updated := RunBlock(s.(prevTime := Some(currentTime)), currentTime - s.prevTime.value, score);
      var ended := CollisionBlock(updated.next, collides);
      TickBlocks(s, currentTime, score, collides);
      RunBlockFacts(s.(prevTime := Some(currentTime)), currentTime - s.prevTime.value, score);
      CollisionBlockFacts(updated.next, collides);
      CutsceneBlockFacts(ended.next);
    }
  }

  lemma ResetKeepsInv(s: LoopState)
    requires Inv(s)
    ensures Inv(NewRound(s).next)
  {
  }

  /** What reaches the loop: an animation frame, with the two answers it
      needs from the components, or a release of the armed restart key. */
  datatype Input = Frame(currentTime: real, score: real, collides: bool) | RestartKey

  function Apply(s: LoopState, input: Input): Outcome {
    match input
    case Frame(t, score, collides) => Tick(s, t, score, collides)
    case RestartKey => NewRound(s)
  }

  /** A session: the inputs in order, the effects concatenated. */
  function Play(s: LoopState, inputs: seq<Input>): Outcome
    decreases |inputs|
  {
    if inputs == [] then Outcome(s, [])
    else
      var first := Apply(s, inputs[0]);
      var rest := Play(first.next, inputs[1..]);
      Outcome(rest.next, first.effects + rest.effects)
  }

  function Restarts(inputs: seq<Input>): nat
    decreases |inputs|
  {
    if inputs == [] then 0 else (if inputs[0].RestartKey? then 1 else 0) + Restarts(inputs[1..])
  }

  /** The high score is recorded at most once per game over: at most once
      per round, and not at all in a round that is already over. */
  lemma {:induction false} HighScoreOncePerGameOver(s: LoopState, inputs: seq<Input>)
    ensures HighScores(Play(s, inputs).effects) <= Restarts(inputs) + (if s.gameOver then 0 else 1)
    decreases |inputs|
  {
    if inputs != [] {
      var first := Apply(s, inputs[0]);
      QuietEffectsCountNothing(NewRound(s).effects);
      CountsAdd(first.effects, Play(first.next, inputs[1..]).effects);
      if inputs[0].Frame? {
        TickGameOverEdge(s, inputs[0].currentTime, inputs[0].score, inputs[0].collides);
      }
      HighScoreOncePerGameOver(first.next, inputs[1..]);
      assert Play(s, inputs).effects == first.effects + Play(first.next, inputs[1..]).effects;
    }
  }

  /** The restart key is armed at most once per round. */
  lemma {:induction false} RestartArmedOncePerRound(s: LoopState, inputs: seq<Input>)
    ensures Arms(Play(s, inputs).effects) <=
            Restarts(inputs) + (if s.hasAddedEventListenersForRestart then 0 else 1)
    decreases |inputs|
  {
    if inputs != [] {
      var first := Apply(s, inputs[0]);
      QuietEffectsCountNothing(NewRound(s).effects);
      CountsAdd(first.effects, Play(first.next, inputs[1..]).effects);
      if inputs[0].Frame? {
        TickArmsOnce(s, inputs[0].currentTime, inputs[0].score, inputs[0].collides);
      }
      RestartArmedOncePerRound(first.next, inputs[1..]);
      assert Play(s, inputs).effects == first.effects + Play(first.next, inputs[1..]).effects;
    }
  }

  /** How many times the cutscene starts during a session. */
  function CutsceneStarts(s: LoopState, inputs: seq<Input>): nat
    decreases |inputs|
  {
    if inputs == [] then 0
    else
      var next := Apply(s, inputs[0]).next;
      (if !s.isCutscenePlaying && next.isCutscenePlaying then 1 else 0) + CutsceneStarts(next, inputs[1..])
  }

  /** The cutscene starts at most once per session, restarts included, and
      never again once it has been shown. */
  lemma {:induction false} CutsceneAtMostOnce(s: LoopState, inputs: seq<Input>)
    requires Inv(s)
    ensures CutsceneStarts(s, inputs) <= (if s.cutscenePassed then 0 else 1)
    decreases |inputs|
  {
    if inputs != [] {
      var next := Apply(s, inputs[0]).next;
      if inputs[0].Frame? {
        TickCutsceneStart(s, inputs[0].currentTime, inputs[0].score, inputs[0].collides);
        TickKeepsInv(s, inputs[0].currentTime, inputs[0].score, inputs[0].collides);
      } else {
        ResetKeepsInv(s);
      }
      CutsceneAtMostOnce(next, inputs[1..]);
    }
  }

  // ---------------------------------------------------------------------
  // The loop's state as the module variables the source mutates

  class GameSession {
    const scaleRatio: real
    var prevTime: Option<real>
    var gameSpeed: real
    var gameOver: bool
    var hasAddedEventListenersForRestart: bool
    var waitingToStart: bool
    var isCutscenePlaying: bool
    var cutscenePassed: bool
    var obstacleConfig: seq<ConfigEntry>

    function State(): LoopState
      reads this
    {
      LoopState(prevTime, gameSpeed, gameOver, hasAddedEventListenersForRestart, waitingToStart,
                isCutscenePlaying, cutscenePassed, obstacleConfig, scaleRatio)
    }

    constructor (scaleRatio: real)
      ensures State() == Initial(scaleRatio)
    {
      this.scaleRatio := scaleRatio;
      prevTime := None;
      gameSpeed := GameSpeedStart;
      gameOver := false;
      hasAddedEventListenersForRestart := false;
      waitingToStart := true;
      isCutscenePlaying := false;
      cutscenePassed := false;
      obstacleConfig := InitialConfig;
    }

    method UpdateGameSpeed(frameTimeDelta: real, score: real)
      modifies this`gameSpeed, this`isCutscenePlaying
      ensures State() == SpeedStep(old(State()), frameTimeDelta, score)
    {
      if !isCutscenePlaying {
        gameSpeed := gameSpeed + frameTimeDelta * GameSpeedIncrement;
        if score >= CutsceneInitScore && cutscenePassed == false {
          isCutscenePlaying := true;
        }
      }
    }

    method SetupGameReset(delayTime: int) returns (effects: seq<Effect>)
      modifies this`hasAddedEventListenersForRestart
      ensures Outcome(State(), effects) == ArmOnce(old(State()), delayTime)
    {
      effects := [];
      if !hasAddedEventListenersForRestart {
        hasAddedEventListenersForRestart := true;
        effects := [ArmRestart(delayTime)];
      }
    }

    /** `addObstacle`: appends one configuration entry per image, in order. */
    method AddObstacle(images: seq<string>)
      modifies this`obstacleConfig
      ensures obstacleConfig == WithObstacles(old(obstacleConfig), images)
    {
      for i := 0 to |images|
        invariant |obstacleConfig| == |old(obstacleConfig)| + i
        invariant obstacleConfig[..|old(obstacleConfig)|] == old(obstacleConfig)
        invariant forall j :: 0 <= j < i ==>
          obstacleConfig[|old(obstacleConfig)| + j] == ConfigEntry(ObstacleWidth, ObstacleHeight, images[j])
      {
        obstacleConfig := obstacleConfig + [ConfigEntry(ObstacleWidth, ObstacleHeight, images[i])];
      }
      assert obstacleConfig == WithObstacles(old(obstacleConfig), images);
    }

    /** The running block of a frame. */
    method UpdateComponents(frameTimeDelta: real, score: real) returns (effects: seq<Effect>)
      modifies this`gameSpeed, this`isCutscenePlaying
      ensures Outcome(State(), effects) == RunBlock(old(State()), frameTimeDelta, score)
    {
      effects := [];
      if !gameOver && !waitingToStart && !isCutscenePlaying {
        effects := [UpdateGround(gameSpeed, frameTimeDelta), UpdateObstacles(gameSpeed, frameTimeDelta),
                    UpdatePlayer(gameSpeed, frameTimeDelta)];
        UpdateGameSpeed(frameTimeDelta, score);
        effects := effects + [UpdateScore(frameTimeDelta)];
      }
    }

    /** The collision block of a frame. */
    method EndOnCollision(collides: bool) returns (effects: seq<Effect>)
      modifies this`gameOver, this`hasAddedEventListenersForRestart
      ensures Outcome(State(), effects) == CollisionBlock(old(State()), collides)
    {
      effects := [];
      if !gameOver && collides {
        gameOver := true;
        var armed := SetupGameReset(GameOverRestartDelay);
        effects := armed + [RecordHighScore];
      }
    }

    /** The cutscene block of a frame. */
    method PlayCutscene() returns (effects: seq<Effect>)
      modifies this`hasAddedEventListenersForRestart, this`obstacleConfig, this`cutscenePassed
      ensures Outcome(State(), effects) == CutsceneBlock(old(State()))
    {
      effects := [];
      if isCutscenePlaying {
        var armed := SetupGameReset(CutsceneRestartDelay);
        AddObstacle(CutsceneImages);
        effects := armed + [RebuildObstacleController(ObstacleImages(obstacleConfig, scaleRatio))];
        cutscenePassed := true;
      }
    }

    /** One animation frame. */
    method GameLoop(currentTime: real, score: real, collides: bool) returns (effects: seq<Effect>)
      modifies this
      ensures Outcome(State(), effects) == Tick(old(State()), currentTime, score, collides)
    {
      if prevTime.None? {
        prevTime := Some(currentTime);
        return [];
      }
      var frameTimeDelta := currentTime - prevTime.value;
      prevTime := Some(currentTime);
      var updated := UpdateComponents(frameTimeDelta, score);
      var ended := EndOnCollision(collides);
      var shown := PlayCutscene();
      effects := updated + ended + shown;
    }

    /** The restart key: a new round. */
    method Reset() returns (effects: seq<Effect>)
      modifies this
      ensures Outcome(State(), effects) == NewRound(old(State()))
    {
      hasAddedEventListenersForRestart := false;
      gameOver := false;
      waitingToStart := false;
      isCutscenePlaying := false;
      effects := [ResetGround, ResetObstacles, ResetScore];
      gameSpeed := GameSpeedStart;
    }
  }
}
