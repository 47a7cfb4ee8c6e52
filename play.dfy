/** A match of the current engine as a sequence of the things that can
    happen to it: paddle moves, power moves and clock ticks. Over any such
    sequence the scores only grow, by at most one per command, and a match
    that starts with paddles and ball inside the field keeps them there. */
module PongPlay {
  import opened RustPrims
  import opened Helpers
  import opened PongGame
  import opened GameLaws

  datatype Command =
    | Move(playerIndex: nat, direction: i8)
    | Power(playerIndex: nat)
    | Tick(nowMs: int, randomNumber: int, agent: Agent)

  /** What a command asks of itself: a player index `0` or `1`, a random
      draw from `0..=1`. */
  predicate Fits(c: Command)
  {
    match c
    case Move(i, _) => i < 2
    case Power(i) => i < 2
    case Tick(_, randomNumber, _) => 0 <= randomNumber <= 1
  }

  /** The invariants every command keeps, apart from the scores' room. */
  predicate Playable(g: GameState)
  {
    WellFormed(g) && PlayableArea(g.gameArea) && AgentsFit(g)
  }

  function TotalScore(g: GameState): int
    requires |g.players| == 2
  {
    g.players[0].score + g.players[1].score
  }

  /** Each score can still grow `n` times without leaving `u32`. */
  predicate ScoreRoom(g: GameState, n: nat)
    requires |g.players| == 2
  {
    g.players[0].score + n < U32_MAX && g.players[1].score + n < U32_MAX
  }

  /** One command applied to the game. */
  function Apply(g: GameState, c: Command): (r: GameState)
    requires Playable(g) && ScoresBelowMax(g) && Fits(c)
    ensures Playable(r) && r.gameArea == g.gameArea && ScoresStep(g, r)
  {
    match c
    case Move(i, direction) => AfterMove(g, i, direction)
    case Power(i) => AfterPowerMove(g, i)
    case Tick(nowMs, randomNumber, agent) => AfterTick(g, nowMs, randomNumber, agent)
  }

  /** The commands applied one after the other. Neither score decreases,
      and together they grow by at most one per command. */
  function Run(g: GameState, cmds: seq<Command>): (r: GameState)
    requires Playable(g) && ScoreRoom(g, |cmds|)
    requires forall k :: 0 <= k < |cmds| ==> Fits(cmds[k])
    ensures Playable(r) && r.gameArea == g.gameArea
    ensures g.players[0].score <= r.players[0].score && g.players[1].score <= r.players[1].score
    ensures TotalScore(r) <= TotalScore(g) + |cmds|
    decreases |cmds|
  {
    if cmds == [] then g
    else Run(Apply(g, cmds[0]), cmds[1..])
  }

  /** Both paddles and the ball lie in the interior of the field. */
  predicate PlayInside(g: GameState)
  {
    && |g.players| == 2
    && PaddleInside(g, 0) && PaddleInside(g, 1)
    && g.ball.x < g.gameArea.width - 2 && g.ball.y < g.gameArea.height - 2
  }

  /** A new game on a field of at least 73 by 17 cells starts inside it. */
  lemma NewGameStartsInside(name1: string, name2: string, area: Rect, gameType: GameType, nowMs: int)
    requires area.width >= 73 && area.height >= 17
    ensures PlayInside(NewGame(name1, name2, area, gameType, nowMs))
  {
  }

  /** Every command keeps paddles and ball inside a field at least 8
      columns wide. */
  lemma ApplyKeepsPlayInside(g: GameState, c: Command)
    requires Playable(g) && ScoresBelowMax(g) && Fits(c)
    requires g.gameArea.width >= 8 && PlayInside(g)
    ensures PlayInside(Apply(g, c))
  {
    match c
    case Move(i, direction) =>
      MoveKeepsPaddleInside(g, i, direction);
    case Power(i) =>
    case Tick(nowMs, randomNumber, agent) =>
      if TickDue(g, nowMs) {
        var s := AfterBallStep(g, randomNumber).state;
        StepKeepsBallInField(g, randomNumber);
        var s0 := AfterComputerPlayer(s, 0, agent);
        var s1 := AfterComputerPlayer(s0, 1, agent);
        assert PlayInside(s);
        assert PlayInside(s0);
        assert PlayInside(s1);
      }
  }

  /** A match that starts inside a field at least 8 columns wide stays
      inside it, whatever the commands. */
  lemma {:induction false} RunKeepsPlayInside(g: GameState, cmds: seq<Command>)
    requires Playable(g) && ScoreRoom(g, |cmds|)
    requires forall k :: 0 <= k < |cmds| ==> Fits(cmds[k])
    requires g.gameArea.width >= 8 && PlayInside(g)
    ensures PlayInside(Run(g, cmds))
    decreases |cmds|
  {
    if cmds != [] {
      ApplyKeepsPlayInside(g, cmds[0]);
      RunKeepsPlayInside(Apply(g, cmds[0]), cmds[1..]);
    }
  }

  /** No command refills a charge: only a power move may use one, and no
      command touches a name, a ready flag or the pause flag. */
  lemma ApplyNeverRefillsCharges(g: GameState, c: Command)
    requires Playable(g) && ScoresBelowMax(g) && Fits(c)
    ensures var r := Apply(g, c);
      && r.isPaused == g.isPaused
      && forall k :: 0 <= k < 2 ==>
           && r.players[k].powerMovesLeft <= g.players[k].powerMovesLeft
           && (!c.Power? ==> r.players[k].powerMovesLeft == g.players[k].powerMovesLeft)
           && r.players[k].name == g.players[k].name && r.players[k].isReady == g.players[k].isReady
  {
    if c.Power? {
      PowerMoveEffect(g, c.playerIndex);
    }
  }

  /** Over any match the charges never grow back, and the names, the ready
      flags and the pause flag stay as they were. */
  lemma {:induction false} RunNeverRefillsCharges(g: GameState, cmds: seq<Command>)
    requires Playable(g) && ScoreRoom(g, |cmds|)
    requires forall k :: 0 <= k < |cmds| ==> Fits(cmds[k])
    ensures var r := Run(g, cmds);
      && r.isPaused == g.isPaused
      && forall k :: 0 <= k < 2 ==>
           && r.players[k].powerMovesLeft <= g.players[k].powerMovesLeft
           && r.players[k].name == g.players[k].name && r.players[k].isReady == g.players[k].isReady
    decreases |cmds|
  {
    if cmds != [] {
      ApplyNeverRefillsCharges(g, cmds[0]);
      RunNeverRefillsCharges(Apply(g, cmds[0]), cmds[1..]);
    }
  }

  /** Moves and power moves alone never change a score. */
  lemma {:induction false} NoTicksNoPoints(g: GameState, cmds: seq<Command>)
    requires Playable(g) && ScoreRoom(g, |cmds|)
    requires forall k :: 0 <= k < |cmds| ==> Fits(cmds[k]) && !cmds[k].Tick?
    ensures Run(g, cmds).players[0].score == g.players[0].score
    ensures Run(g, cmds).players[1].score == g.players[1].score
    decreases |cmds|
  {
    if cmds != [] {
      NoTicksNoPoints(Apply(g, cmds[0]), cmds[1..]);
    }
  }
}
