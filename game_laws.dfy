/** What the current engine's operations promise, stated about the state
    functions of `PongGame`: paddle moves, the branches of the physics step,
    power moves and the tick gate. */
module GameLaws {
  import opened RustPrims
  import opened Helpers
  import opened PongGame

  /** Everything one physics step asks of its state and its random draw. */
  predicate StepReady(g: GameState, randomNumber: int)
  {
    WellFormed(g) && PlayableArea(g.gameArea) && ScoresBelowMax(g) && 0 <= randomNumber <= 1
  }

  /** Player `i`'s paddle lies in the interior rows `0 .. height - 2`. */
  predicate PaddleInside(g: GameState, i: nat)
    requires |g.players| == 2 && i < 2
  {
    g.players[i].barPosition + g.players[i].barLength <= g.gameArea.height - 2
  }

  // ---------------------------------------------------------------------
  // move_player

  /** Direction 0 does nothing; a positive direction moves the paddle up one
      row exactly when it is not on the top row, a negative one down one row
      exactly when its bottom is above the last interior row. */
  lemma MoveDirections(g: GameState, i: nat, direction: i8)
    requires WellFormed(g) && i < 2 && (direction < 0 ==> g.gameArea.height >= 2)
    ensures direction == 0 ==> AfterMove(g, i, direction) == g
    ensures direction > 0 ==>
      var bar := g.players[i].barPosition;
      (AfterMove(g, i, direction).players[i].barPosition == bar - 1 <==> bar > 0)
      && (AfterMove(g, i, direction).players[i].barPosition == bar <==> bar == 0)
    ensures direction < 0 ==>
      var p := g.players[i];
      var moved := AfterMove(g, i, direction).players[i].barPosition;
      (moved == p.barPosition + 1 <==> p.barPosition + p.barLength < g.gameArea.height - 2)
      && (moved == p.barPosition <==> p.barPosition + p.barLength >= g.gameArea.height - 2)
  {
  }

  /** A paddle that lies in the interior stays there whatever the move, and
      it never moves more than one row. */
  lemma MoveKeepsPaddleInside(g: GameState, i: nat, direction: i8)
    requires WellFormed(g) && i < 2 && (direction < 0 ==> g.gameArea.height >= 2)
    requires PaddleInside(g, i)
    ensures PaddleInside(AfterMove(g, i, direction), i)
    ensures Dist(AfterMove(g, i, direction).players[i].barPosition, g.players[i].barPosition) <= 1
  {
  }

  // ---------------------------------------------------------------------
  // update_ball_position

  /** The wall step: a candidate row at the top or at or below the last
      interior row flips the vertical velocity and pins the ball to that
      edge; any other candidate row is taken as it is. */
  lemma WallStep(b: Ball, innerHeight: u16)
    requires innerHeight >= 1 && b.vy != I8_MIN
    ensures var newY := CandidateY(b);
      && (newY == 0 ==> AfterWalls(b, innerHeight).y == 0 && AfterWalls(b, innerHeight).vy == -b.vy)
      && (0 < newY && newY >= innerHeight - 1 ==>
            AfterWalls(b, innerHeight).y == innerHeight - 1 && AfterWalls(b, innerHeight).vy == -b.vy)
      && (0 < newY < innerHeight - 1 ==>
            AfterWalls(b, innerHeight).y == newY && AfterWalls(b, innerHeight).vy == b.vy)
  {
  }

  /** The step reports a hit of the left paddle exactly when its collision
      test holds. The ball then bounces back at the speed it came with (a
      powered `-6` leaves at `+6`) from column 5, on the row and with the
      vertical velocity the wall step left, and no score changes. */
  lemma LeftPaddleHit(g: GameState, randomNumber: int)
    requires StepReady(g, randomNumber)
    ensures AfterBallStep(g, randomNumber).hit == Some(1) <==> HitsLeftPaddle(g)
    ensures HitsLeftPaddle(g) ==>
      var r := AfterBallStep(g, randomNumber).state;
      && r.players == g.players
      && r.ball.vx == -g.ball.vx && Dist(r.ball.vx, 0) == Dist(g.ball.vx, 0)
      && r.ball.x == 5
      && r.ball.isPowered == g.ball.isPowered
      && r.ball == AfterWalls(g.ball, g.gameArea.height - 2).(vx := -g.ball.vx, x := 5)
  {
  }

  /** The step reports a hit of the right paddle exactly when the left test
      fails and the right one holds. The ball then leaves at speed `-3`
      whatever its speed was, from column `innerWidth - 5`, unpowered, on
      the row and with the vertical velocity the wall step left, and no
      score changes. */
  lemma RightPaddleHit(g: GameState, randomNumber: int)
    requires StepReady(g, randomNumber)
    ensures AfterBallStep(g, randomNumber).hit == Some(2) <==> !HitsLeftPaddle(g) && HitsRightPaddle(g)
    ensures !HitsLeftPaddle(g) && HitsRightPaddle(g) ==>
      var r := AfterBallStep(g, randomNumber).state;
      && r.players == g.players
      && r.ball.vx == -DEFAULT_BALL_VELOCITY_X
      && r.ball.x == g.gameArea.width - 2 - 5
      && !r.ball.isPowered
      && r.ball == AfterWalls(g.ball, g.gameArea.height - 2).(
           vx := -DEFAULT_BALL_VELOCITY_X, x := g.gameArea.width - 2 - 5, isPowered := false)
  {
  }

  /** A ball that misses both paddles and leaves the field on the left
      scores one point for the second player, on the right one point for the
      first; it is re-served from the centre at horizontal speed 3 in the
      drawn direction, unpowered, its vertical velocity as the wall step
      left it. */
  lemma Miss(g: GameState, randomNumber: int)
    requires StepReady(g, randomNumber) && !HitsLeftPaddle(g) && !HitsRightPaddle(g)
    requires CandidateX(g.ball) <= 0 || CandidateX(g.ball) >= g.gameArea.width - 2
    ensures AfterBallStep(g, randomNumber).hit == None
    ensures var r := AfterBallStep(g, randomNumber).state;
      && (CandidateX(g.ball) <= 0 ==>
            r.players[1].score == g.players[1].score + 1 && r.players[0].score == g.players[0].score)
      && (CandidateX(g.ball) > 0 ==>
            r.players[0].score == g.players[0].score + 1 && r.players[1].score == g.players[1].score)
      && r.ball.x == (g.gameArea.width - 2) / 2 && r.ball.y == (g.gameArea.height - 2) / 2
      && r.ball.vx == (if randomNumber == 0 then DEFAULT_BALL_VELOCITY_X else -DEFAULT_BALL_VELOCITY_X)
      && !r.ball.isPowered
      && r.ball.vy == AfterWalls(g.ball, g.gameArea.height - 2).vy
  {
  }

  /** With no hit and no miss the ball simply moves to its candidate column,
      and nothing else but the wall step happens. */
  lemma Advance(g: GameState, randomNumber: int)
    requires StepReady(g, randomNumber) && !HitsLeftPaddle(g) && !HitsRightPaddle(g)
    requires 0 < CandidateX(g.ball) < g.gameArea.width - 2
    ensures AfterBallStep(g, randomNumber).hit == None
    ensures AfterBallStep(g, randomNumber).state
         == g.(ball := AfterWalls(g.ball, g.gameArea.height - 2).(x := CandidateX(g.ball)))
  {
  }

  /** Only a miss changes a score, and then only the score of the player on
      the other side of the exit. */
  lemma ScoresChangeOnlyOnMiss(g: GameState, randomNumber: int)
    requires StepReady(g, randomNumber)
    ensures AfterBallStep(g, randomNumber).hit != None ==> AfterBallStep(g, randomNumber).state.players == g.players
    ensures AfterBallStep(g, randomNumber).state.players[0].score > g.players[0].score ==>
              CandidateX(g.ball) >= g.gameArea.width - 2
    ensures AfterBallStep(g, randomNumber).state.players[1].score > g.players[1].score ==>
              CandidateX(g.ball) <= 0
  {
  }

  /** On a field at least 8 columns wide every step leaves the ball inside
      the interior. (At width 7 a hit of the left paddle puts the ball at
      column 5, which is the interior width.) */
  lemma StepKeepsBallInField(g: GameState, randomNumber: int)
    requires StepReady(g, randomNumber) && g.gameArea.width >= 8
    ensures AfterBallStep(g, randomNumber).state.ball.x < g.gameArea.width - 2
    ensures AfterBallStep(g, randomNumber).state.ball.y < g.gameArea.height - 2
  {
  }

  /** The width bound above cannot be lowered to 7: a ball bouncing off the
      left paddle of a 7-column field lands on the interior width. */
  lemma LeftHitOnNarrowFieldLandsOnBorder()
    ensures var g := GameState([NewPlayer("a", Rect(0, 0, 7, 10), false, Manual),
                                NewPlayer("b", Rect(0, 0, 7, 10), true, Manual)],
                               Ball(4, 3, -1, 1, false), Rect(0, 0, 7, 10), 0, false);
      StepReady(g, 0) && AfterBallStep(g, 0).state.ball.x == g.gameArea.width - 2
  {
    var area := Rect(0, 0, 7, 10);
    var g := GameState([NewPlayer("a", area, false, Manual), NewPlayer("b", area, true, Manual)],
                       Ball(4, 3, -1, 1, false), area, 0, false);
    assert g.players[0].barPosition == 3;
    assert HitsLeftPaddle(g);
  }

  // ---------------------------------------------------------------------
  // power_move

  /** A power move changes the game exactly when a charge is left and the
      ball is in the power window of the player's paddle; it then sends the
      ball right at speed 6, powered, and uses exactly one charge. Otherwise
      nothing changes. The window is the band `3 < x < 6` next to the left
      paddle whichever player asks. */
  lemma PowerMoveEffect(g: GameState, i: nat)
    requires WellFormed(g) && i < 2
    ensures var p := g.players[i];
      AfterPowerMove(g, i) != g <==> p.powerMovesLeft > 0 && InPowerWindow(g.ball, p)
    ensures var p := g.players[i];
      p.powerMovesLeft > 0 && InPowerWindow(g.ball, p) ==>
        && AfterPowerMove(g, i).ball == g.ball.(vx := POWER_VELOCITY_X, isPowered := true)
        && AfterPowerMove(g, i).players[i].powerMovesLeft == p.powerMovesLeft - 1
    ensures AfterPowerMove(g, i) != g ==> 3 < g.ball.x < 6 && g.ball.vx < 0
  {
    var p := g.players[i];
    if p.powerMovesLeft > 0 && InPowerWindow(g.ball, p) {
      assert AfterPowerMove(g, i).players[i].powerMovesLeft != g.players[i].powerMovesLeft;
    }
  }

  // ---------------------------------------------------------------------
  // update_game_state

  /** The state a tick's preconditions ask for. */
  predicate TickReady(g: GameState, randomNumber: int)
  {
    StepReady(g, randomNumber) && AgentsFit(g)
  }

  /** Before `TICK_MS` have passed since the last tick nothing happens. */
  lemma TickNotDue(g: GameState, nowMs: int, randomNumber: int, agent: Agent)
    requires TickReady(g, randomNumber) && nowMs - g.lastUpdateMs < TICK_MS
    ensures AfterTick(g, nowMs, randomNumber, agent) == g
  {
  }

  /** A due tick runs the physics step first, and both controllers see the
      ball where the step left it: the ball after the tick is the stepped
      ball, a controlled paddle is where its controller aims given that
      ball, clamped to the interior, and a manual paddle stays put. */
  lemma TickOrder(g: GameState, nowMs: int, randomNumber: int, agent: Agent)
    requires TickReady(g, randomNumber) && TickDue(g, nowMs)
    ensures var s := AfterBallStep(g, randomNumber).state;
            var r := AfterTick(g, nowMs, randomNumber, agent);
      && r.ball == s.ball
      && r.players[0].score == s.players[0].score && r.players[1].score == s.players[1].score
      && (forall k :: 0 <= k < 2 ==>
            r.players[k].barPosition
              == if g.players[k].control == Manual then g.players[k].barPosition
                 else Clamp(agent(k, s.ball, g.players[k].barPosition), 0, g.gameArea.height - 2 - DEFAULT_BAR_LENGTH))
  {
    var s := AfterBallStep(g, randomNumber).state;
    var s0 := AfterComputerPlayer(s, 0, agent);
    var s1 := AfterComputerPlayer(s0, 1, agent);
    assert s0.players[1] == s.players[1];
    assert s1.players[0] == s0.players[0];
  }

  /** Two clock readings less than `TICK_MS` apart update the game at most
      once: after a tick at `t1`, a call at `t2 < t1 + TICK_MS` does
      nothing. */
  lemma AtMostOneTickPerInterval(g: GameState, t1: int, t2: int, rn1: int, rn2: int, agent: Agent)
    requires TickReady(g, rn1) && 0 <= rn2 <= 1
    requires g.players[0].score < U32_MAX - 1 && g.players[1].score < U32_MAX - 1
    requires TickDue(g, t1) && t1 <= t2 < t1 + TICK_MS
    ensures TickReady(AfterTick(g, t1, rn1, agent), rn2)
    ensures AfterTick(AfterTick(g, t1, rn1, agent), t2, rn2, agent) == AfterTick(g, t1, rn1, agent)
  {
  }
}
