/** The current Pong engine: two players, a ball and the playfield, with the
    per-tick physics step, paddle moves, power moves and the tick gate.

    Every operation is given twice: as a function from the old `GameState`
    to the new one (`AfterMove`, `AfterBallStep`, ...), about which the
    properties are proved, and as a method of the class `Game`, which updates
    the fields in place as the engine does and is proved to agree with the
    function. */
module PongGame {
  import opened RustPrims
  import opened Helpers

  const DEFAULT_BAR_LENGTH: u8 := 5
  const DEFAULT_BALL_VELOCITY_X: i8 := 3
  const DEFAULT_BALL_VELOCITY_Y: i8 := 1
  const STARTING_POWER_MOVES: u8 := 10
  /** Horizontal speed of a ball after a successful power move. */
  const POWER_VELOCITY_X: i8 := 6
  /** Rows a paddle covers in the collision and power-move tests, which use
      this literal rather than the player's `barLength`. */
  const PADDLE_ROWS: int := 5
  /** Minimum wall-clock time between two ticks, in milliseconds. */
  const TICK_MS: int := 33

  datatype GameType = AgainstAi | ScreenSaver

  /** Whether a computer controller is attached to a player. The
      controller's own floating-point state is not part of the model. */
  datatype Control = Manual | ComputerAi

  datatype Player = Player(
    name: seq<char>,
    score: u32,
    powerMovesLeft: u8,
    barPosition: u16,
    barLength: u8,
    isReady: bool,
    isComputer: bool,
    control: Control)

  /** `x`, `y` are `position[0]`, `position[1]`; `vx`, `vy` are
      `velocity[0]`, `velocity[1]`. */
  datatype Ball = Ball(x: u16, y: u16, vx: i8, vy: i8, isPowered: bool)

  datatype GameState = GameState(
    players: seq<Player>,
    ball: Ball,
    gameArea: Rect,
    lastUpdateMs: int,
    isPaused: bool)

  /** What `update_ball_position` leaves behind and returns: `Some(1)` or
      `Some(2)` for a hit on that player's paddle, `None` otherwise. */
  datatype Stepped = Stepped(state: GameState, hit: Option<u8>)

  /** A computer controller, reduced to where it aims the top of its paddle
      in a tick, given the player index, the ball and the paddle's current
      row. Its timers, fatigue, floating-point arithmetic and random draws
      all hide behind this choice; only the final clamp is modelled. */
  type Agent = (nat, Ball, u16) -> int

  /** Invariants every reachable state keeps: two players with the default
      paddle, whose `u16` sums `barPosition + 5` cannot overflow, and
      velocities whose `i8` negation cannot overflow. */
  predicate WellFormed(g: GameState)
  {
    && |g.players| == 2
    && DefaultPaddle(g.players[0]) && DefaultPaddle(g.players[1])
    && g.ball.vx != I8_MIN && g.ball.vy != I8_MIN
  }

  predicate DefaultPaddle(p: Player)
  {
    p.barLength == DEFAULT_BAR_LENGTH && p.barPosition + PADDLE_ROWS <= U16_MAX
  }

  /** The playfield is big enough for the `u16` subtractions of the
      physics step: `height - 2 - 1` and `width - 2 - 5`. */
  predicate PlayableArea(a: Rect)
  {
    a.width >= 7 && a.height >= 3
  }

  predicate ScoresBelowMax(g: GameState)
    requires |g.players| == 2
  {
    g.players[0].score < U32_MAX && g.players[1].score < U32_MAX
  }

  /** The playfield is high enough for each attached controller's clamp. */
  predicate AgentsFit(g: GameState)
    requires |g.players| == 2
  {
    && (g.players[0].control == ComputerAi ==> g.gameArea.height - 2 >= g.players[0].barLength)
    && (g.players[1].control == ComputerAi ==> g.gameArea.height - 2 >= g.players[1].barLength)
  }

  /** Row `y` lies on one of the rows the collision tests give `p`'s paddle. */
  predicate OnPaddleRows(y: int, p: Player)
  {
    p.barPosition <= y < p.barPosition + PADDLE_ROWS
  }

  function CandidateX(b: Ball): u16
  {
    SaturatingAddSigned(b.x, b.vx)
  }

  function CandidateY(b: Ball): u16
  {
    SaturatingAddSigned(b.y, b.vy)
  }

  /** The collision test of the left (first) paddle. */
  predicate HitsLeftPaddle(g: GameState)
    requires |g.players| == 2
  {
    CandidateX(g.ball) <= 3 && g.ball.vx < 0 && OnPaddleRows(CandidateY(g.ball), g.players[0])
  }

  /** The collision test of the right (second) paddle. */
  predicate HitsRightPaddle(g: GameState)
    requires |g.players| == 2 && g.gameArea.width >= 6
  {
    CandidateX(g.ball) >= g.gameArea.width - 2 - 4 && g.ball.vx > 0
    && OnPaddleRows(CandidateY(g.ball), g.players[1])
  }

  /** The window in which a power move takes effect: the ball moves left,
      is level with the player's paddle and is in the band `3 < x < 6`. */
  predicate InPowerWindow(b: Ball, p: Player)
  {
    b.vx < 0 && OnPaddleRows(b.y, p) && 3 < b.x < 6
  }

  /** The players agree except, possibly, in their scores. */
  predicate OnlyScoresDiffer(before: GameState, after: GameState)
    requires |before.players| == 2 && |after.players| == 2
  {
    && after.players[0] == before.players[0].(score := after.players[0].score)
    && after.players[1] == before.players[1].(score := after.players[1].score)
  }

  /** Neither score decreases, and at most one of them grows, by one. */
  predicate ScoresStep(before: GameState, after: GameState)
    requires |before.players| == 2 && |after.players| == 2
  {
    var s0, s1 := before.players[0].score, before.players[1].score;
    var t0, t1 := after.players[0].score, after.players[1].score;
    (t0 == s0 && t1 == s1) || (t0 == s0 + 1 && t1 == s1) || (t0 == s0 && t1 == s1 + 1)
  }

  /** A new player, its paddle centred vertically in the area. */
  function NewPlayer(name: string, area: Rect, isReady: bool, control: Control): Player
  {
    Player(StringToCharArray(name), 0, STARTING_POWER_MOVES,
           SaturatingSub(area.height / 2, DEFAULT_BAR_LENGTH / 2), DEFAULT_BAR_LENGTH,
           isReady, false, control)
  }

  /** The state `Game::new` builds, started at clock reading `nowMs`. */
  function NewGame(name1: string, name2: string, area: Rect, gameType: GameType, nowMs: int): (g: GameState)
    ensures WellFormed(g)
    ensures forall k :: 0 <= k < 2 ==>
      && g.players[k].score == 0
      && g.players[k].powerMovesLeft == STARTING_POWER_MOVES
      && g.players[k].barLength == DEFAULT_BAR_LENGTH
      && !g.players[k].isComputer
      && (g.players[k].barPosition + 2 == area.height / 2 || (area.height / 2 < 2 && g.players[k].barPosition == 0))
    ensures g.players[0].name == StringToCharArray(name1) && g.players[1].name == StringToCharArray(name2)
    ensures !g.players[0].isReady && g.players[1].isReady
    ensures g.players[0].control == ComputerAi <==> gameType == ScreenSaver
    ensures g.players[1].control == ComputerAi <==> (gameType == AgainstAi || gameType == ScreenSaver)
    ensures g.isPaused && g.gameArea == area && g.lastUpdateMs == nowMs
    ensures g.ball == Ball(70, 14, DEFAULT_BALL_VELOCITY_X, DEFAULT_BALL_VELOCITY_Y, false)
  {
    var player1 := NewPlayer(name1, area, false, if gameType == ScreenSaver then ComputerAi else Manual);
    var player2 := NewPlayer(name2, area, true,
                             if gameType == AgainstAi || gameType == ScreenSaver then ComputerAi else Manual);
    GameState([player1, player2], Ball(70, 14, DEFAULT_BALL_VELOCITY_X, DEFAULT_BALL_VELOCITY_Y, false),
              area, nowMs, true)
  }

  /** `move_player`: a positive direction moves the paddle one row up, a
      negative one one row down, each only while the paddle stays in the
      interior; a zero direction does nothing. Only a downward move reads
      the area height, whose `height - 2` must not underflow. */
  function AfterMove(g: GameState, i: nat, direction: i8): (r: GameState)
    requires WellFormed(g) && i < 2
    requires direction < 0 ==> g.gameArea.height >= 2
    ensures WellFormed(r)
    ensures r == g.(players := g.players[i := g.players[i].(barPosition := r.players[i].barPosition)])
  {
    var p := g.players[i];
    if direction == 0 then g
    else if direction > 0 then
      if p.barPosition > 0 then g.(players := g.players[i := p.(barPosition := p.barPosition - 1)]) else g
    else
      var innerHeight := g.gameArea.height - 2;
      if p.barPosition + p.barLength < innerHeight then
        g.(players := g.players[i := p.(barPosition := p.barPosition + 1)])
      else g
  }

  /** The wall part of the physics step: a candidate row at the top or at or
      past the bottom row `innerHeight - 1` reverses the vertical velocity and
      puts the ball on that edge row; any other candidate row is taken. */
  function AfterWalls(b: Ball, innerHeight: u16): (r: Ball)
    requires innerHeight >= 1 && b.vy != I8_MIN
    ensures r.y <= innerHeight - 1 && r.vy != I8_MIN
    ensures r.x == b.x && r.vx == b.vx && r.isPowered == b.isPowered
  {
    var newY := CandidateY(b);
    if newY == 0 || newY >= innerHeight - 1
    then b.(vy := -b.vy, y := if newY == 0 then 0 else innerHeight - 1)
    else b.(y := newY)
  }

  /** `update_ball_position`: one physics step. `randomNumber` is the draw
      from `0..=1` that picks the horizontal direction of a re-served ball. */
  function AfterBallStep(g: GameState, randomNumber: int): (r: Stepped)
    requires WellFormed(g) && PlayableArea(g.gameArea) && ScoresBelowMax(g)
    requires 0 <= randomNumber <= 1
    ensures WellFormed(r.state)
    ensures r.state.gameArea == g.gameArea && r.state.lastUpdateMs == g.lastUpdateMs
    ensures r.state.isPaused == g.isPaused
    ensures OnlyScoresDiffer(g, r.state) && ScoresStep(g, r.state)
    ensures r.state.ball.y <= g.gameArea.height - 3
  {
    var innerWidth := g.gameArea.width - 2;
    var innerHeight := g.gameArea.height - 2;
    var newX := CandidateX(g.ball);
    var newY := CandidateY(g.ball);
    var b := AfterWalls(g.ball, innerHeight);
    if HitsLeftPaddle(g) then
      Stepped(g.(ball := b.(vx := -b.vx, x := 5)), Some(1))
    else if HitsRightPaddle(g) then
      Stepped(g.(ball := b.(vx := -DEFAULT_BALL_VELOCITY_X, x := innerWidth - 5, isPowered := false)), Some(2))
    else if newX <= 0 || newX >= innerWidth then
      var scorer := if newX <= 0 then 1 else 0;
      var direction := if randomNumber == 0 then 1 else -1;
      var winner := g.players[scorer];
      Stepped(g.(players := g.players[scorer := winner.(score := winner.score + 1)],
                 ball := b.(x := innerWidth / 2, y := innerHeight / 2, vx := direction * 3, isPowered := false)),
              None)
    else
      Stepped(g.(ball := b.(x := newX)), None)
  }

  // The four lemmas below spell out the branches of `AfterBallStep` one by
  // one. They exist only to keep the proof of `Game.UpdateBallPosition`
  // cheap; the properties of the step are stated in `GameLaws`.

  /** The ball step on a hit of the left paddle, spelled out. */
  lemma BallStepOnLeftHit(g: GameState, randomNumber: int)
    requires WellFormed(g) && PlayableArea(g.gameArea) && ScoresBelowMax(g) && 0 <= randomNumber <= 1
    requires HitsLeftPaddle(g)
    ensures AfterBallStep(g, randomNumber)
         == Stepped(g.(ball := AfterWalls(g.ball, g.gameArea.height - 2).(vx := -g.ball.vx, x := 5)), Some(1))
  {
  }

  /** The ball step on a hit of the right paddle, spelled out. */
  lemma BallStepOnRightHit(g: GameState, randomNumber: int)
    requires WellFormed(g) && PlayableArea(g.gameArea) && ScoresBelowMax(g) && 0 <= randomNumber <= 1
    requires !HitsLeftPaddle(g) && HitsRightPaddle(g)
    ensures AfterBallStep(g, randomNumber)
         == Stepped(g.(ball := AfterWalls(g.ball, g.gameArea.height - 2).(
                     vx := -DEFAULT_BALL_VELOCITY_X, x := g.gameArea.width - 2 - 5, isPowered := false)),
                    Some(2))
  {
  }

  /** The ball step when the ball leaves the field, spelled out. */
  lemma BallStepOnExit(g: GameState, randomNumber: int)
    requires WellFormed(g) && PlayableArea(g.gameArea) && ScoresBelowMax(g) && 0 <= randomNumber <= 1
    requires !HitsLeftPaddle(g) && !HitsRightPaddle(g)
    requires CandidateX(g.ball) <= 0 || CandidateX(g.ball) >= g.gameArea.width - 2
    ensures var scorer := if CandidateX(g.ball) <= 0 then 1 else 0;
            (AfterBallStep(g, randomNumber)
             == Stepped(g.(players := g.players[scorer := g.players[scorer].(score := g.players[scorer].score + 1)],
                       ball := AfterWalls(g.ball, g.gameArea.height - 2).(
                         x := (g.gameArea.width - 2) / 2, y := (g.gameArea.height - 2) / 2,
                         vx := (if randomNumber == 0 then 1 else -1) * 3, isPowered := false)),
                        None))
  {
  }

  /** The ball step with neither a hit nor an exit, spelled out. */
  lemma BallStepOnAdvance(g: GameState, randomNumber: int)
    requires WellFormed(g) && PlayableArea(g.gameArea) && ScoresBelowMax(g) && 0 <= randomNumber <= 1
    requires !HitsLeftPaddle(g) && !HitsRightPaddle(g)
    requires 0 < CandidateX(g.ball) < g.gameArea.width - 2
    ensures AfterBallStep(g, randomNumber)
         == Stepped(g.(ball := AfterWalls(g.ball, g.gameArea.height - 2).(x := CandidateX(g.ball))), None)
  {
  }

  /** The last step of `update_computer_player`: a player with a controller
      attached has its paddle moved to where the controller aims, clamped to
      the interior; any other player is left alone. The clamp needs the
      interior to be at least a paddle high, and the second player's paddle
      column `width - 3` must not underflow. */
  function AfterComputerPlayer(g: GameState, i: nat, agent: Agent): (r: GameState)
    requires WellFormed(g) && i < 2
    requires g.players[i].control == ComputerAi ==>
               g.gameArea.height - 2 >= g.players[i].barLength && (i == 1 ==> g.gameArea.width >= 3)
    ensures WellFormed(r)
    ensures r.players[i].control == ComputerAi ==> r.players[i].barPosition + r.players[i].barLength <= g.gameArea.height - 2
    ensures g.players[i].control == Manual ==> r == g
    ensures r == g.(players := g.players[i := g.players[i].(barPosition := r.players[i].barPosition)])
  {
    var p := g.players[i];
    if p.control == Manual then g
    else
      var innerHeight := g.gameArea.height - 2;
      var bar := Clamp(agent(i, g.ball, p.barPosition), 0, innerHeight - p.barLength);
      g.(players := g.players[i := p.(barPosition := bar)])
  }

  /** The tick fires once at least `TICK_MS` have passed since the last one. */
  predicate TickDue(g: GameState, nowMs: int)
  {
    nowMs - g.lastUpdateMs >= TICK_MS
  }

  /** `update_game_state`, with the clock reading `nowMs` passed in: when the
      tick is due, the ball step, then the first player's controller, then
      the second player's, and the tick's time is recorded; otherwise
      nothing. */
  function AfterTick(g: GameState, nowMs: int, randomNumber: int, agent: Agent): (r: GameState)
    requires WellFormed(g) && PlayableArea(g.gameArea) && ScoresBelowMax(g) && AgentsFit(g)
    requires 0 <= randomNumber <= 1
    ensures WellFormed(r) && r.gameArea == g.gameArea && ScoresStep(g, r)
    ensures r.players[0].control == g.players[0].control && r.players[1].control == g.players[1].control
    ensures r.lastUpdateMs == if TickDue(g, nowMs) then nowMs else g.lastUpdateMs
    ensures r.isPaused == g.isPaused
    ensures forall k :: 0 <= k < 2 ==>
              r.players[k] == g.players[k].(score := r.players[k].score, barPosition := r.players[k].barPosition)
  {
    if TickDue(g, nowMs) then
      var s := AfterBallStep(g, randomNumber).state;
      var s := AfterComputerPlayer(s, 0, agent);
      var s := AfterComputerPlayer(s, 1, agent);
      s.(lastUpdateMs := nowMs)
    else g
  }

  /** `power_move`: with a charge left and the ball in the power window of
      player `i`'s paddle, the ball is boosted rightwards and one charge is
      used; otherwise nothing changes. */
  function AfterPowerMove(g: GameState, i: nat): (r: GameState)
    requires WellFormed(g) && i < 2
    ensures WellFormed(r)
    ensures r == g.(players := r.players, ball := r.ball)
    ensures r.players == g.players[i := g.players[i].(powerMovesLeft := r.players[i].powerMovesLeft)]
  {
    var p := g.players[i];
    if p.powerMovesLeft <= 0 then g
    else if InPowerWindow(g.ball, p) then
      g.(ball := g.ball.(vx := POWER_VELOCITY_X, isPowered := true),
         players := g.players[i := p.(powerMovesLeft := p.powerMovesLeft - 1)])
    else g
  }

  /** The engine object. The two players live in a fixed array of two; the
      ball, the area, the clock reading of the last tick and the pause flag
      are fields. */
  class Game {
    const players: array<Player>
    var ball: Ball
    var gameArea: Rect
    var lastUpdateMs: int
    var isPaused: bool

    ghost function View(): GameState
      reads this, players
    {
      GameState(players[..], ball, gameArea, lastUpdateMs, isPaused)
    }

    ghost predicate Valid()
      reads this, players
    {
      WellFormed(View())
    }

    /** `Game::new`. */
    constructor (name1: string, name2: string, area: Rect, gameType: GameType, nowMs: int)
      ensures Valid() && fresh(players)
      ensures View() == NewGame(name1, name2, area, gameType, nowMs)
    {
      var g := NewGame(name1, name2, area, gameType, nowMs);
      players := new Player[] [g.players[0], g.players[1]];
      ball := g.ball;
      gameArea := g.gameArea;
      lastUpdateMs := g.lastUpdateMs;
      isPaused := g.isPaused;
    }

    /** `set_area`: the area changes, nothing is re-clamped. */
    method SetArea(area: Rect)
      requires Valid()
      modifies this
      ensures Valid() && View() == old(View()).(gameArea := area)
    {
      gameArea := area;
    }

    /** `ready_player`. */
    method ReadyPlayer(i: nat)
      requires Valid() && i < 2
      modifies players
      ensures Valid()
      ensures View() == old(View()).(players := old(players[..])[i := old(players[i]).(isReady := true)])
    {
      players[i] := players[i].(isReady := true);
    }

    /** `move_player`. */
    method MovePlayer(playerIndex: nat, direction: i8)
      requires Valid() && playerIndex < 2
      requires direction < 0 ==> gameArea.height >= 2
      modifies players
      ensures Valid() && View() == AfterMove(old(View()), playerIndex, direction)
    {
      if direction == 0 {
        return;
      }
      var player := players[playerIndex];
      if direction > 0 {
        if player.barPosition > 0 {
          players[playerIndex] := player.(barPosition := player.barPosition - 1);
        }
      } else {
        var innerHeight := gameArea.height - 2;
        if player.barPosition + player.barLength < innerHeight {
          players[playerIndex] := player.(barPosition := player.barPosition + 1);
        }
      }
    }

    /** `update_ball_position`, returning which paddle, if any, was hit. */
    method UpdateBallPosition(randomNumber: int) returns (hit: Option<u8>)
      requires Valid() && PlayableArea(gameArea) && ScoresBelowMax(View())
      requires 0 <= randomNumber <= 1
      modifies this, players
      ensures Valid()
      ensures View() == AfterBallStep(old(View()), randomNumber).state
      ensures hit == AfterBallStep(old(View()), randomNumber).hit
    {
      ghost var g := View();
      var innerWidth := gameArea.width - 2;
      var innerHeight := gameArea.height - 2;
      var b := ball;
      var newX := SaturatingAddSigned(b.x, b.vx);
      var newY := SaturatingAddSigned(b.y, b.vy);

      // collision with the top and bottom walls
      b := AfterWalls(b, innerHeight);

      // the first player's paddle, on the left
      if newX <= 3 && b.vx < 0 {
        if newY >= players[0].barPosition && newY < players[0].barPosition + 5 {
          ball := b.(vx := -b.vx, x := 5);
          BallStepOnLeftHit(g, randomNumber);
          return Some(1);
        }
      }

      // the second player's paddle, on the right
      if newX >= innerWidth - 4 && b.vx > 0 {
        if newY >= players[1].barPosition && newY < players[1].barPosition + 5 {
          ball := b.(vx := -DEFAULT_BALL_VELOCITY_X, x := innerWidth - 5, isPowered := false);
          BallStepOnRightHit(g, randomNumber);
          return Some(2);
        }
      }

      if newX <= 0 || newX >= innerWidth {
        // the ball left the field: the other side scores
        var scorer := if newX <= 0 then 1 else 0;
        players[scorer] := players[scorer].(score := players[scorer].score + 1);
        var direction := if randomNumber == 0 then 1 else -1;
        ball := b.(x := innerWidth / 2, y := innerHeight / 2, vx := direction * 3, isPowered := false);
        BallStepOnExit(g, randomNumber);
      } else {
        ball := b.(x := newX);
        BallStepOnAdvance(g, randomNumber);
      }
      return None;
    }

    /** The effect of `update_computer_player` on the paddle. */
    method UpdateComputerPlayer(playerIndex: nat, agent: Agent)
      requires Valid() && playerIndex < 2
      requires players[playerIndex].control == ComputerAi ==>
                 gameArea.height - 2 >= players[playerIndex].barLength && (playerIndex == 1 ==> gameArea.width >= 3)
      modifies players
      ensures Valid() && View() == AfterComputerPlayer(old(View()), playerIndex, agent)
    {
      var computer := players[playerIndex];
      if computer.control == Manual {
        return;
      }
      var innerHeight := gameArea.height - 2;
      var aim := agent(playerIndex, ball, computer.barPosition);
      var bar := Clamp(aim, 0, innerHeight - computer.barLength);
      players[playerIndex] := computer.(barPosition := bar);
    }

    /** `update_game_state`, with the clock reading passed in. */
    method UpdateGameState(nowMs: int, randomNumber: int, agent: Agent)
      requires Valid() && PlayableArea(gameArea) && ScoresBelowMax(View()) && AgentsFit(View())
      requires 0 <= randomNumber <= 1
      modifies this, players
      ensures Valid() && View() == AfterTick(old(View()), nowMs, randomNumber, agent)
    {
      if nowMs - lastUpdateMs >= TICK_MS {
        var _ := UpdateBallPosition(randomNumber);
        UpdateComputerPlayer(0, agent);
        UpdateComputerPlayer(1, agent);
        lastUpdateMs := nowMs;
      }
    }

    /** `power_move`. */
    method PowerMove(playerIndex: nat)
      requires Valid() && playerIndex < 2
      modifies this, players
      ensures Valid() && View() == AfterPowerMove(old(View()), playerIndex)
    {
      var player := players[playerIndex];
      if player.powerMovesLeft <= 0 {
        return;
      }
      if ball.vx < 0 && ball.y >= player.barPosition && ball.y < player.barPosition + 5
         && ball.x > 3 && ball.x < 6
      {
        ball := ball.(vx := 6, isPowered := true);
        players[playerIndex] := player.(powerMovesLeft := player.powerMovesLeft - 1);
      }
    }
  }
}
