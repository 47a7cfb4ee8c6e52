/** The older engine of the terminal front end: the `App` methods that move
    the paddles, make a power move and advance the ball on a fixed 138 by 26
    interior, with the points kept apart from the players.

    As in `PongGame`, every operation is a function on `AppState`, about
    which the properties are proved, and a method of the class `App`, which
    updates the fields in place and is proved to agree with it. */
module PongApp {
  import opened RustPrims
  import opened Helpers

  const INNER_WIDTH: int := 138
  const INNER_HEIGHT: int := 26
  /** Rows a paddle covers. */
  const BAR_HEIGHT: int := 5
  /** Lowest row the top of a paddle can reach: `INNER_HEIGHT - BAR_HEIGHT`. */
  const LOWEST_BAR: int := 21

  datatype Player = Player(name: seq<char>, barPosition: u16)

  /** `x`, `y` are `position[0]`, `position[1]`; `vx`, `vy` are
      `velocity[0]`, `velocity[1]`. */
  datatype Ball = Ball(x: u16, y: u16, vx: i16, vy: i16, powered: bool)

  datatype AppState = AppState(players: seq<Player>, points: seq<i64>, ball: Ball)

  /** The computer controller of the second player, reduced to the row it
      aims the top of the paddle at, given the ball and the paddle's row; its
      floating-point state, timers and random draws hide behind this
      choice. */
  type Agent = (Ball, u16) -> int

  /** Invariants every reachable state keeps: two players and two point
      counters, paddles and ball inside the interior, and velocities whose
      `i16` negation cannot overflow. */
  predicate Inv(s: AppState)
  {
    && |s.players| == 2 && |s.points| == 2
    && s.players[0].barPosition <= LOWEST_BAR && s.players[1].barPosition <= LOWEST_BAR
    && s.ball.x < INNER_WIDTH && s.ball.y < INNER_HEIGHT - 1
    && s.ball.vx != I16_MIN && s.ball.vy != I16_MIN
  }

  /** Row `y` lies on one of the rows of `p`'s paddle. */
  predicate OnPaddleRows(y: int, p: Player)
  {
    p.barPosition <= y < p.barPosition + BAR_HEIGHT
  }

  /** The state `App::new` builds. */
  function InitialApp(): (s: AppState)
    ensures Inv(s)
    ensures s.players[0] == Player(StringToCharArray("Promethewz"), 0)
    ensures s.players[1] == Player(StringToCharArray("Computer"), 0)
    ensures s.points == [0, 0]
    ensures s.ball == Ball(70, 14, 3, 1, false)
  {
    AppState([Player(StringToCharArray("Promethewz"), 0), Player(StringToCharArray("Computer"), 0)],
             [0, 0], Ball(70, 14, 3, 1, false))
  }

  /** `move_up`: one row up, unless the paddle is on the top row. */
  function AfterMoveUp(s: AppState, i: nat): (r: AppState)
    requires Inv(s) && i < 2
    ensures Inv(r)
    ensures r == s.(players := s.players[i := s.players[i].(barPosition := r.players[i].barPosition)])
  {
    var p := s.players[i];
    if p.barPosition > 0 then s.(players := s.players[i := p.(barPosition := p.barPosition - 1)]) else s
  }

  /** `move_down`: one row down, while the paddle's bottom is above the last
      interior row. */
  function AfterMoveDown(s: AppState, i: nat): (r: AppState)
    requires Inv(s) && i < 2
    ensures Inv(r)
    ensures r == s.(players := s.players[i := s.players[i].(barPosition := r.players[i].barPosition)])
  {
    var p := s.players[i];
    if p.barPosition + BAR_HEIGHT < INNER_HEIGHT then s.(players := s.players[i := p.(barPosition := p.barPosition + 1)])
    else s
  }

  /** `power_move`: always for the first player; with the ball moving left,
      level with that paddle and in the band `3 < x < 6`, the ball is sent
      right at speed 6, powered. There is no charge counter. */
  function AfterPowerMove(s: AppState): (r: AppState)
    requires Inv(s)
    ensures Inv(r)
    ensures r == s.(ball := r.ball)
  {
    var b := s.ball;
    if b.vx < 0 && OnPaddleRows(b.y, s.players[0]) && 3 < b.x < 6
    then s.(ball := b.(vx := 6, powered := true))
    else s
  }

  function CandidateX(b: Ball): u16
  {
    SaturatingAddSigned(b.x, b.vx)
  }

  function CandidateY(b: Ball): u16
  {
    SaturatingAddSigned(b.y, b.vy)
  }

  /** The wall part of the step: a candidate row at the top or at or past
      row 25 reverses the vertical velocity but leaves the ball on its old
      row; any other candidate row is taken. */
  function AfterWalls(b: Ball): (r: Ball)
    requires b.vy != I16_MIN
    ensures r.vy != I16_MIN && r.x == b.x && r.vx == b.vx && r.powered == b.powered
    ensures b.y < INNER_HEIGHT - 1 ==> r.y < INNER_HEIGHT - 1
  {
    var newY := CandidateY(b);
    if newY == 0 || newY >= INNER_HEIGHT - 1 then b.(vy := -b.vy) else b.(y := newY)
  }

  /** The collision test of the left paddle, made against the row the wall
      step has already written. */
  predicate HitsLeftPaddle(s: AppState)
    requires Inv(s)
  {
    var w := AfterWalls(s.ball);
    CandidateX(s.ball) <= 3 && w.vx < 0 && OnPaddleRows(w.y, s.players[0])
  }

  /** The collision test of the right paddle, likewise. */
  predicate HitsRightPaddle(s: AppState)
    requires Inv(s)
  {
    var w := AfterWalls(s.ball);
    CandidateX(s.ball) >= INNER_WIDTH - 4 && w.vx > 0 && OnPaddleRows(w.y, s.players[1])
  }

  /** The `direction` drawn for a re-served ball: any value whose product
      with 3 is an `i16`. */
  predicate DirectionFits(direction: int)
  {
    I16_MIN <= direction * 3 <= 0x7fff
  }

  /** Neither point counter decreases, and at most one grows, by one. */
  predicate PointsStep(before: AppState, after: AppState)
    requires |before.points| == 2 && |after.points| == 2
  {
    var s0: int, s1: int := before.points[0], before.points[1];
    var t0, t1 := after.points[0], after.points[1];
    (t0 == s0 && t1 == s1) || (t0 == s0 + 1 && t1 == s1) || (t0 == s0 && t1 == s1 + 1)
  }

  /** `update_ball_position`: one physics step, with the direction of a
      re-served ball passed in. The `i64` point counters must have room. */
  function AfterBallStep(s: AppState, direction: int): (r: AppState)
    requires Inv(s) && s.points[0] < I64_MAX && s.points[1] < I64_MAX && DirectionFits(direction)
    ensures Inv(r) && r.players == s.players && PointsStep(s, r)
  {
    var newX := CandidateX(s.ball);
    var w := AfterWalls(s.ball);
    if HitsLeftPaddle(s) then
      s.(ball := w.(vx := -w.vx, x := 5))
    else if HitsRightPaddle(s) then
      s.(ball := w.(vx := -3, x := INNER_WIDTH - 5, powered := false))
    else if newX == 0 || newX >= INNER_WIDTH then
      var scorer := if newX == 0 then 1 else 0;
      s.(points := s.points[scorer := s.points[scorer] + 1],
         ball := w.(x := INNER_WIDTH / 2, y := INNER_HEIGHT / 2, vx := direction * 3, powered := false))
    else
      s.(ball := w.(x := newX))
  }

  /** The last step of `update_computer_player`: the second paddle goes
      where the controller aims, clamped to the interior rows `0 ..= 21`. */
  function AfterComputerPlayer(s: AppState, agent: Agent): (r: AppState)
    requires Inv(s)
    ensures Inv(r)
    ensures r == s.(players := s.players[1 := s.players[1].(barPosition := r.players[1].barPosition)])
  {
    var p := s.players[1];
    s.(players := s.players[1 := p.(barPosition := Clamp(agent(s.ball, p.barPosition), 0, LOWEST_BAR))])
  }

  /** `update_game_state`: the ball step, then the computer player. */
  function AfterUpdate(s: AppState, direction: int, agent: Agent): (r: AppState)
    requires Inv(s) && s.points[0] < I64_MAX && s.points[1] < I64_MAX && DirectionFits(direction)
    ensures Inv(r) && PointsStep(s, r)
  {
    AfterComputerPlayer(AfterBallStep(s, direction), agent)
  }

  /** The application object. Players and point counters are fixed arrays
      of two; the ball is a field. */
  class App {
    const players: array<Player>
    const points: array<i64>
    var ball: Ball

    ghost function View(): AppState
      reads this, players, points
    {
      AppState(players[..], points[..], ball)
    }

    ghost predicate Valid()
      reads this, players, points
    {
      Inv(View())
    }

    /** `App::new`. */
    constructor ()
      ensures Valid() && fresh(players) && fresh(points)
      ensures View() == InitialApp()
    {
      players := new Player[] [Player(StringToCharArray("Promethewz"), 0), Player(StringToCharArray("Computer"), 0)];
      points := new i64[] [0, 0];
      ball := Ball(70, 14, 3, 1, false);
    }

    /** `move_up`. */
    method MoveUp(playerIndex: nat)
      requires Valid() && playerIndex < 2
      modifies players
      ensures Valid() && View() == AfterMoveUp(old(View()), playerIndex)
    {
      if players[playerIndex].barPosition > 0 {
        players[playerIndex] := players[playerIndex].(barPosition := players[playerIndex].barPosition - 1);
      }
    }

    /** `move_down`. */
    method MoveDown(playerIndex: nat)
      requires Valid() && playerIndex < 2
      modifies players
      ensures Valid() && View() == AfterMoveDown(old(View()), playerIndex)
    {
      var innerHeight := INNER_HEIGHT;
      var barHeight := BAR_HEIGHT;
      if players[playerIndex].barPosition + barHeight < innerHeight {
        players[playerIndex] := players[playerIndex].(barPosition := players[playerIndex].barPosition + 1);
      }
    }

    /** `power_move`. */
    method PowerMove()
      requires Valid()
      modifies this
      ensures Valid() && View() == AfterPowerMove(old(View()))
    {
      var player := players[0];
      if ball.vx < 0 && ball.y >= player.barPosition && ball.y < player.barPosition + 5
         && ball.x > 3 && ball.x < 6
      {
        ball := ball.(vx := 6, powered := true);
      }
    }

    /** `update_ball_position`, with the drawn direction passed in. */
    method UpdateBallPosition(direction: int)
      requires Valid() && points[0] < I64_MAX && points[1] < I64_MAX && DirectionFits(direction)
      modifies this, points
      ensures Valid() && View() == AfterBallStep(old(View()), direction)
    {
      ghost var s := View();
      var innerWidth := INNER_WIDTH;
      var b := ball;
      var newX := SaturatingAddSigned(b.x, b.vx);

      // collision with the top and bottom walls
      b := AfterWalls(b);

      // the first player's paddle, on the left
      if newX <= 3 && b.vx < 0 {
        if b.y >= players[0].barPosition && b.y < players[0].barPosition + 5 {
          ball := b.(vx := -b.vx, x := 5);
          return;
        }
      }

      // the second player's paddle, on the right
      if newX >= innerWidth - 4 && b.vx > 0 {
        if b.y >= players[1].barPosition && b.y < players[1].barPosition + 5 {
          ball := b.(vx := -3, x := innerWidth - 5, powered := false);
          return;
        }
      }

      if newX == 0 || newX >= innerWidth {
        // the ball left the field: the other side scores
        if newX == 0 {
          points[1] := points[1] + 1;
        } else {
          points[0] := points[0] + 1;
        }
        ball := b.(x := innerWidth / 2, y := INNER_HEIGHT / 2, vx := direction * 3, powered := false);
      } else {
        ball := b.(x := newX);
      }
    }

    /** The effect of `update_computer_player` on the second paddle. */
    method UpdateComputerPlayer(agent: Agent)
      requires Valid()
      modifies players
      ensures Valid() && View() == AfterComputerPlayer(old(View()), agent)
    {
      var computer := players[1];
      var aim := agent(ball, computer.barPosition);
      players[1] := computer.(barPosition := Clamp(aim, 0, LOWEST_BAR));
    }

    /** `update_game_state`. */
    method UpdateGameState(direction: int, agent: Agent)
      requires Valid() && points[0] < I64_MAX && points[1] < I64_MAX && DirectionFits(direction)
      modifies this, players, points
      ensures Valid() && View() == AfterUpdate(old(View()), direction, agent)
    {
      UpdateBallPosition(direction);
      UpdateComputerPlayer(agent);
    }
  }
}
