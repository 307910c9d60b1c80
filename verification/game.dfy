/**
  The Sky Dino session as one explicit state record and pure transitions over
  it: the keydown handler (game.js:139-162), the help-icon click
  (game.js:164-173), `resetGame` (game.js:177-198, without the music),
  `update` (game.js:202-260) and the game-over guard of the frame loop
  (game.js:357-358). `Run` interleaves key presses, clicks and frames in any
  order, as the browser's single event loop does.
*/
module Game {
  import opened Geometry
  import opened Platforms
  import opened Character
  import opened LegAnimation

  datatype State = State(
    gameStarted: bool,
    gameOver: bool,
    hasPlayedOnce: bool,
    showHelp: bool,
    score: nat,
    highScore: nat,
    dino: Dino,
    legs: Legs,
    platforms: seq<Platform>)

  /**
    What every reachable state satisfies: there is always a tail platform to
    read, a lost game was started, a lost game's score is already in the high
    score, a grounded dino has its double jump back, and the leg counter is in
    range.
  */
  predicate Valid(s: State) {
    && s.platforms != []
    && (s.gameOver ==> s.gameStarted)
    && (s.gameOver ==> s.score <= s.highScore)
    && (s.dino.onGround ==> !s.dino.doubleJumpUsed)
    && s.legs.counter < LegSwitchRate
  }

  /** The dino at rest on the ground line, where a reset puts it. */
  function StandingDino(cfg: Config): (d: Dino)
    ensures d.onGround && d.velocityY == 0.0 && !d.doubleJumpUsed
    ensures d.y + DinoHeight(cfg) == InitPlatforms(cfg)[0].y
  {
    Dino(StandY(cfg), 0.0, true, false)
  }

  /**
    The state before the first key press, with the dino standing on the ground
    platform (the placement `resetGame` and `updateSizes` use).
  */
  function Initial(cfg: Config): (r: State)
    ensures Valid(r)
    ensures !r.gameStarted && !r.gameOver && !r.hasPlayedOnce && !r.showHelp
    ensures r.score == 0 && r.highScore == 0
    ensures r.platforms == InitPlatforms(cfg) && r.legs == Standing
    ensures r.dino == StandingDino(cfg)
    ensures r.dino.onGround && r.dino.y + DinoHeight(cfg) == r.platforms[0].y
  {
    State(false, false, false, false, 0, 0, StandingDino(cfg), Standing, InitPlatforms(cfg))
  }

  /**
    The state the script's declarations describe: the dino object literal
    puts the dino's top at 0.8 of the canvas height, which is where the ground
    platform's top is, so the dino's bottom starts below the platform by its
    own height. (The script as written stops at its line 81 before it reaches
    the literal; this is the state it would build once that load-order error
    is repaired without moving the first `updateSizes` after the literal.)
  */
  function InitialAsWritten(cfg: Config): (r: State)
    ensures Valid(r)
    ensures !r.gameStarted && !r.gameOver && !r.hasPlayedOnce && !r.showHelp
    ensures r.score == 0 && r.highScore == 0
    ensures r.platforms == InitPlatforms(cfg) && r.legs == Standing
    ensures r.dino == Dino(cfg.height * 0.8, 0.0, true, false)
    ensures r.dino.y + DinoHeight(cfg) == r.platforms[0].y + DinoHeight(cfg)
  {
    Initial(cfg).(dino := Dino(cfg.height * 0.8, 0.0, true, false))
  }

  /**
    `resetGame(skipHome)`: a fresh run. The score, dino, platforms and legs go
    back to the start; the high score and the help popup are kept; the run
    skips the start screen when asked to or when a game has been played.
  */
  function Reset(cfg: Config, s: State, skipHome: bool): (r: State)
    ensures Valid(r)
    ensures r.highScore == s.highScore && r.showHelp == s.showHelp
    ensures !r.gameOver && r.hasPlayedOnce
    ensures r.gameStarted <==> skipHome || s.hasPlayedOnce
    ensures r.score == 0 && r.legs == Standing
    ensures r.platforms == InitPlatforms(cfg) && |r.platforms| == 1
    ensures r.dino.onGround && r.dino.velocityY == 0.0 && !r.dino.doubleJumpUsed
    ensures r.dino.y + DinoHeight(cfg) == r.platforms[0].y
  {
    State(
      gameStarted := skipHome || s.hasPlayedOnce,
      gameOver := false,
      hasPlayedOnce := true,
      showHelp := s.showHelp,
      score := 0,
      highScore := s.highScore,
      dino := StandingDino(cfg),
      legs := Standing,
      platforms := InitPlatforms(cfg))
  }

  /** A keydown event: its physical `code` and its produced `key`. */
  datatype KeyEvent = KeyEvent(code: string, key: string)

  predicate IsSpace(e: KeyEvent) {
    e.code == "Space"
  }

  /** `key.toLowerCase() === "r"`: only "r" and "R" lower-case to "r". */
  predicate IsRestart(e: KeyEvent) {
    e.key == "r" || e.key == "R"
  }

  /**
    The keydown handler. Space on the start screen only starts the game (no
    jump on that press); Space while playing is a jump; R after a game over is
    a reset that skips the start screen. Nothing else reacts, and no key ever
    touches the high score.
  */
  function OnKey(cfg: Config, s: State, e: KeyEvent): (r: State)
    ensures !s.gameStarted && IsSpace(e) ==> r == s.(gameStarted := true)
    ensures s.gameStarted && !s.gameOver ==> r == s.(dino := r.dino)
    ensures s.gameStarted && !s.gameOver && IsSpace(e) ==> r.dino == Jump(cfg, s.dino)
    ensures !IsSpace(e) && !(s.gameOver && IsRestart(e)) ==> r == s
    ensures s.gameOver && s.gameStarted && IsRestart(e) ==> r == Reset(cfg, s, true)
    ensures s.gameOver && s.gameStarted && !IsRestart(e) ==> r == s
    ensures r.highScore == s.highScore
    ensures r.score == s.score || (s.gameOver && r.score == 0)
    ensures Valid(s) ==> Valid(r)
  {
    if !s.gameStarted && IsSpace(e) then
      s.(gameStarted := true)
    else
      var s1 := if !s.gameOver && s.gameStarted && IsSpace(e) then s.(dino := Jump(cfg, s.dino)) else s;
      if s1.gameOver && IsRestart(e) then Reset(cfg, s1, true) else s1
  }

  /** The help icon's hit zone: a disc of radius 25 centred on (40, 40). */
  predicate OnHelpIcon(mx: real, my: real) {
    var dx := mx - 40.0;
    var dy := my - 40.0;
    dx * dx + dy * dy <= 25.0 * 25.0
  }

  /**
    A click at canvas coordinates (mx, my): the help popup flips exactly when
    the click is on the icon, and nothing else changes.
  */
  function OnClick(s: State, mx: real, my: real): (r: State)
    ensures r.showHelp != s.showHelp <==> OnHelpIcon(mx, my)
    ensures r == s.(showHelp := r.showHelp)
  {
    if OnHelpIcon(mx, my) then s.(showHelp := !s.showHelp) else s
  }

  /** The dino as the collision loop first sees it: fallen one frame, flag cleared. */
  function Airborne(cfg: Config, d: Dino): (r: Dino)
    ensures !r.onGround && r.y >= Ceiling(cfg)
    ensures r.doubleJumpUsed == d.doubleJumpUsed
    ensures d.y + d.velocityY + Gravity(cfg) >= Ceiling(cfg) ==>
      r.velocityY == d.velocityY + Gravity(cfg) && r.y == d.y + r.velocityY
    ensures d.y + d.velocityY + Gravity(cfg) < Ceiling(cfg) ==>
      r.y == Ceiling(cfg) && r.velocityY == 0.0
  {
    Fall(cfg, d).(onGround := false)
  }

  /** The game-over test: the dino's top edge is past the bottom margin. */
  predicate FellOff(cfg: Config, d: Dino) {
    d.y > FallLimit(cfg)
  }

  /**
    One frame of `update`. Before the start it does nothing. Otherwise the
    score goes up by exactly one; platforms scroll at the speed of the old
    score and at most one is appended; the dino falls and lands; the game is
    lost exactly when the dino has fallen off, and only then can the high
    score move, up to the final score; the legs animate while the dino walks.
  */
  function Update(cfg: Config, s: State, draws: SpawnDraws): (r: State)
    requires s.gameStarted ==> s.platforms != []
    ensures !s.gameStarted ==> r == s
    ensures s.gameStarted ==> r.score == s.score + 1
    ensures r.gameStarted == s.gameStarted && r.hasPlayedOnce == s.hasPlayedOnce
    ensures r.showHelp == s.showHelp
    ensures r.highScore >= s.highScore
    ensures r.highScore != s.highScore ==> !s.gameOver && r.gameOver && r.highScore == r.score
    ensures s.gameStarted && !s.gameOver ==> (r.gameOver <==> FellOff(cfg, r.dino))
    ensures r.gameOver && !s.gameOver ==> r.highScore >= r.score
    ensures s.gameStarted ==> |s.platforms| <= |r.platforms| <= |s.platforms| + 1
    ensures s.gameStarted ==> forall i :: 0 <= i < |s.platforms| ==>
      r.platforms[i] == s.platforms[i].(x := s.platforms[i].x - Speed(cfg, s.score))
    ensures s.gameStarted ==>
      (|r.platforms| > |s.platforms| <==>
       s.platforms[|s.platforms| - 1].Right() - Speed(cfg, s.score) < cfg.width)
    ensures s.gameStarted && |r.platforms| > |s.platforms| ==>
      r.platforms[|s.platforms|] == NewPlatform(cfg, draws)
    ensures s.gameStarted && r.dino.onGround ==> r.dino.velocityY == 0.0 && !r.dino.doubleJumpUsed
    ensures s.gameStarted ==> r.legs.counter < LegSwitchRate
    ensures s.gameStarted ==> r.legs == Animate(r.dino.onGround && !r.gameOver, s.legs)
    ensures s.gameStarted && !(r.dino.onGround && !r.gameOver) ==> r.legs == Standing
    ensures s.gameStarted && r.dino.onGround && !r.gameOver && s.legs.counter < LegSwitchRate ==>
      r.legs.counter == (s.legs.counter + 1) % LegSwitchRate
    ensures Valid(s) && !s.gameOver ==> Valid(r)
  {
    if !s.gameStarted then s
    else
      var ps := Advance(cfg, s.platforms, Speed(cfg, s.score), draws);
      var dino := Land(cfg, Airborne(cfg, s.dino), ps);
      Conclude(cfg, s, dino, ps)
  }

  /**
    The end of a started frame: the new score, dino and platforms are stored,
    the game-over test runs once, and the legs animate while the dino walks.
  */
  function Conclude(cfg: Config, s: State, dino: Dino, ps: seq<Platform>): (r: State)
    requires s.gameStarted
    ensures r.score == s.score + 1 && r.dino == dino && r.platforms == ps
    ensures r.gameStarted && r.hasPlayedOnce == s.hasPlayedOnce && r.showHelp == s.showHelp
    ensures r.gameOver <==> s.gameOver || FellOff(cfg, dino)
    ensures r.highScore >= s.highScore
    ensures r.highScore != s.highScore ==> !s.gameOver && r.gameOver && r.highScore == r.score
    ensures r.gameOver && !s.gameOver ==> r.highScore >= r.score
    ensures r.legs == Animate(dino.onGround && !r.gameOver, s.legs)
  {
    var score := s.score + 1;
    var lost := FellOff(cfg, dino) && !s.gameOver;
    var gameOver := s.gameOver || lost;
    State(
      gameStarted := true,
      gameOver := gameOver,
      hasPlayedOnce := s.hasPlayedOnce,
      showHelp := s.showHelp,
      score := score,
      highScore := if lost && score > s.highScore then score else s.highScore,
      dino := dino,
      legs := Animate(dino.onGround && !gameOver, s.legs),
      platforms := ps)
  }

  /** One iteration of the frame loop: `update` runs only while the game is not lost. */
  function Tick(cfg: Config, s: State, draws: SpawnDraws): (r: State)
    requires !s.gameOver && s.gameStarted ==> s.platforms != []
    ensures s.gameOver ==> r == s
    ensures !s.gameOver ==> r == Update(cfg, s, draws)
  {
    if s.gameOver then s else Update(cfg, s, draws)
  }

  /** Everything that can happen to the session. */
  datatype Event =
    | KeyDown(key: KeyEvent)
    | Click(x: real, y: real)
    | Frame(draws: SpawnDraws)

  function Step(cfg: Config, s: State, ev: Event): (r: State)
    requires Valid(s)
    ensures Valid(r)
    ensures r.highScore >= s.highScore
  {
    match ev
    case KeyDown(e) => OnKey(cfg, s, e)
    case Click(x, y) => OnClick(s, x, y)
    case Frame(draws) => Tick(cfg, s, draws)
  }

  /**
    A session: the events in order. Every reachable state is valid, and the
    high score never goes down, across any number of games and restarts.
  */
  function Run(cfg: Config, s: State, evs: seq<Event>): (r: State)
    requires Valid(s)
    ensures Valid(r)
    ensures r.highScore >= s.highScore
    decreases |evs|
  {
    if evs == [] then s else Run(cfg, Step(cfg, s, evs[0]), evs[1..])
  }
}
