/** What the older engine's operations promise, stated about the state
    functions of `PongApp`. */
module AppLaws {
  import opened RustPrims
  import opened PongApp

  /** `move_up` moves the paddle one row up exactly when it is not on the
      top row, and otherwise leaves it. */
  lemma MoveUpEffect(s: AppState, i: nat)
    requires Inv(s) && i < 2
    ensures var bar := s.players[i].barPosition;
      (AfterMoveUp(s, i).players[i].barPosition == bar - 1 <==> bar > 0)
      && (AfterMoveUp(s, i) == s <==> bar == 0)
  {
    if s.players[i].barPosition > 0 {
      assert AfterMoveUp(s, i).players[i] != s.players[i];
    }
  }

  /** `move_down` moves the paddle one row down exactly when its bottom is
      above row 26, and otherwise leaves it; its top row never passes 21. */
  lemma MoveDownEffect(s: AppState, i: nat)
    requires Inv(s) && i < 2
    ensures var bar := s.players[i].barPosition;
      (AfterMoveDown(s, i).players[i].barPosition == bar + 1 <==> bar + BAR_HEIGHT < INNER_HEIGHT)
      && (AfterMoveDown(s, i) == s <==> bar + BAR_HEIGHT >= INNER_HEIGHT)
    ensures AfterMoveDown(s, i).players[i].barPosition <= INNER_HEIGHT - BAR_HEIGHT
  {
    if s.players[i].barPosition + BAR_HEIGHT < INNER_HEIGHT {
      assert AfterMoveDown(s, i).players[i] != s.players[i];
    }
  }

  /** The power move changes the ball exactly when it moves left, level with
      the first player's paddle, in the band `3 < x < 6`; it then sends it
      right at speed 6, powered. Paddles and points never change. */
  lemma PowerMoveEffect(s: AppState)
    requires Inv(s)
    ensures var b := s.ball;
      var window := b.vx < 0 && OnPaddleRows(b.y, s.players[0]) && 3 < b.x < 6;
      (AfterPowerMove(s) != s <==> window)
      && (window ==> AfterPowerMove(s).ball == b.(vx := 6, powered := true))
    ensures AfterPowerMove(s).players == s.players && AfterPowerMove(s).points == s.points
  {
  }

  /** Only the first player's paddle takes part in the power move: two
      states that differ in the second paddle alone end with the same
      ball. */
  lemma PowerMoveIgnoresSecondPlayer(s: AppState, bar: u16)
    requires Inv(s) && bar <= LOWEST_BAR
    ensures var t := s.(players := s.players[1 := s.players[1].(barPosition := bar)]);
      Inv(t) && AfterPowerMove(t).ball == AfterPowerMove(s).ball
  {
  }

  /** The older wall step: at a candidate row 0 or at or past row 25 the
      vertical velocity flips and the ball keeps its old row; otherwise it
      moves to the candidate row. */
  lemma WallStep(b: Ball)
    requires b.vy != I16_MIN
    ensures var newY := CandidateY(b);
      (newY == 0 || newY >= INNER_HEIGHT - 1 ==> AfterWalls(b).y == b.y && AfterWalls(b).vy == -b.vy)
      && (0 < newY < INNER_HEIGHT - 1 ==> AfterWalls(b).y == newY && AfterWalls(b).vy == b.vy)
    ensures AfterWalls(b).y == b.y || AfterWalls(b).y == CandidateY(b)
  {
  }

  /** A hit of the left paddle, tested against the row the wall step left:
      the ball bounces back at its own speed from column 5 and the points
      stay as they were. */
  lemma LeftPaddleHit(s: AppState, direction: int)
    requires Inv(s) && s.points[0] < I64_MAX && s.points[1] < I64_MAX && DirectionFits(direction)
    requires HitsLeftPaddle(s)
    ensures var r := AfterBallStep(s, direction);
      && r.points == s.points
      && r.ball == AfterWalls(s.ball).(vx := -s.ball.vx, x := 5)
      && OnPaddleRows(r.ball.y, s.players[0])
  {
  }

  /** A hit of the right paddle: the ball leaves at speed `-3` from column
      133, unpowered, and the points stay as they were. */
  lemma RightPaddleHit(s: AppState, direction: int)
    requires Inv(s) && s.points[0] < I64_MAX && s.points[1] < I64_MAX && DirectionFits(direction)
    requires !HitsLeftPaddle(s) && HitsRightPaddle(s)
    ensures var r := AfterBallStep(s, direction);
      && r.points == s.points
      && r.ball == AfterWalls(s.ball).(vx := -3, x := INNER_WIDTH - 5, powered := false)
      && r.ball.x == 133
  {
  }

  /** A ball that misses both paddles and reaches column 0 scores a point
      for the second player, one that reaches column 138 a point for the
      first; it is re-served from `[69, 13]` at `direction * 3`,
      unpowered. Otherwise it moves to its candidate column. */
  lemma MissOrAdvance(s: AppState, direction: int)
    requires Inv(s) && s.points[0] < I64_MAX && s.points[1] < I64_MAX && DirectionFits(direction)
    requires !HitsLeftPaddle(s) && !HitsRightPaddle(s)
    ensures var r := AfterBallStep(s, direction);
      var newX := CandidateX(s.ball);
      && (newX == 0 ==> r.points == [s.points[0], s.points[1] + 1])
      && (newX >= INNER_WIDTH ==> r.points == [s.points[0] + 1, s.points[1]])
      && (newX == 0 || newX >= INNER_WIDTH ==>
            r.ball == AfterWalls(s.ball).(x := 69, y := 13, vx := direction * 3, powered := false))
      && (0 < newX < INNER_WIDTH ==> r.points == s.points && r.ball == AfterWalls(s.ball).(x := newX))
  {
  }

  /** `update_game_state` runs the ball step first: the ball and the points
      are those the step leaves, the computer's paddle is where it aims
      given the stepped ball, clamped to rows `0 ..= 21`, and the first
      paddle stays put. */
  lemma UpdateOrder(s: AppState, direction: int, agent: Agent)
    requires Inv(s) && s.points[0] < I64_MAX && s.points[1] < I64_MAX && DirectionFits(direction)
    ensures var stepped := AfterBallStep(s, direction);
            var r := AfterUpdate(s, direction, agent);
      && r.ball == stepped.ball && r.points == stepped.points
      && r.players[0] == s.players[0]
      && r.players[1].barPosition == Clamp(agent(stepped.ball, s.players[1].barPosition), 0, LOWEST_BAR)
  {
  }
}
