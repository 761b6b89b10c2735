/** The turn-based driver of Gem Hunters: two players alternate valid moves
    until thirty of them have been made, then the higher gem count wins.

    The board is not part of this model.  Each attempt the loop reads is
    given together with the board's answer to it: Rejected when the board
    finds the key invalid, or Accepted with the coordinate and gem count the
    board leaves the current player with after moving it and collecting. */
module Games {
  import opened Players

  /** Whose turn it is: the first or the second player. */
  datatype Side = P1 | P2

  /** The player who is not side. */
  function Other(side: Side): (r: Side)
    ensures r != side
  {
    if side == P1 then P2 else P1
  }

  /** Switching the turn twice gives it back to the same player. */
  lemma OtherTwice(side: Side)
    ensures Other(Other(side)) == side
  {
  }

  /** The number of valid moves (both players together) after which the game ends. */
  const TurnLimit := 30

  predicate LimitReached(total: int) {
    total >= TurnLimit
  }

  /** What the turn counter and the turn indicator satisfy between moves:
      the counter stays within the limit, and it is the first player's turn
      exactly when an even number of valid moves has been made. */
  predicate TurnInvariant(current: Side, total: int) {
    0 <= total <= TurnLimit && (current == P1 <==> total % 2 == 0)
  }

  // ---------------------------------------------------------------------
  // The result of the game

  datatype Outcome = Player1Wins | Player2Wins | Tie

  /** The announced result for the two final gem counts. */
  function Decide(player1Gems: int, player2Gems: int): (r: Outcome)
    ensures r == Player1Wins <==> player1Gems > player2Gems
    ensures r == Player2Wins <==> player2Gems > player1Gems
    ensures r == Tie <==> player1Gems == player2Gems
  {
    if player1Gems > player2Gems then Player1Wins
    else if player2Gems > player1Gems then Player2Wins
    else Tie
  }

  /** The same result with the players' roles exchanged. */
  function Mirror(r: Outcome): Outcome {
    match r
    case Player1Wins => Player2Wins
    case Player2Wins => Player1Wins
    case Tie => Tie
  }

  /** The decision favours neither player: exchanging the counts exchanges the winner. */
  lemma DecideFair(player1Gems: int, player2Gems: int)
    ensures Decide(player2Gems, player1Gems) == Mirror(Decide(player1Gems, player2Gems))
  {
  }

  // ---------------------------------------------------------------------
  // The game as a value, and the loop as a function on it

  datatype PlayerState = PlayerState(name: string, at: Coord, gems: int)

  /** The board's answer to one attempted key press. */
  datatype BoardResponse = Rejected | Accepted(at: Coord, gems: int)

  /** One key read from the current player, with the board's answer to it. */
  datatype Attempt = Attempt(key: char, response: BoardResponse)

  datatype GameState = GameState(player1: PlayerState, player2: PlayerState, current: Side, total: int)
  {
    function Player(side: Side): PlayerState {
      if side == P1 then player1 else player2
    }
  }

  /** A new game: P1 at (0, 0), P2 at (5, 5), no gems, P1 to move, no moves made. */
  function Initial(): GameState {
    GameState(PlayerState("P1", Coord(0, 0), 0), PlayerState("P2", Coord(5, 5), 0), P1, 0)
  }

  /** One pass through the body of the game loop.  A rejected key changes
      nothing, so the same player tries again.  An accepted key updates the
      current player as the board says, hands the turn to the other player
      and counts one valid move; the other player is never touched. */
  function Iterate(s: GameState, a: Attempt): (r: GameState)
    ensures a.response.Rejected? ==> r == s
    ensures a.response.Accepted? ==> r.current == Other(s.current) && r.total == s.total + 1
    ensures a.response.Accepted? ==>
      r.Player(s.current) == s.Player(s.current).(at := a.response.at, gems := a.response.gems)
    ensures r.Player(Other(s.current)) == s.Player(Other(s.current))
  {
    match a.response
    case Rejected => s
    case Accepted(at, gems) =>
      var moved := s.Player(s.current).(at := at, gems := gems);
      var s' := if s.current == P1 then s.(player1 := moved) else s.(player2 := moved);
      s'.(current := Other(s.current), total := s.total + 1)
  }

  /** The state in which the game loop stops when fed script, one attempt
      per pass, from state s (or the last state, if the script runs out). */
  function Run(s: GameState, script: seq<Attempt>): GameState
    decreases |script|
  {
    if LimitReached(s.total) || script == [] then s
    else Run(Iterate(s, script[0]), script[1..])
  }

  /** The number of attempts in script the board accepts. */
  function AcceptedCount(script: seq<Attempt>): nat {
    if script == [] then 0
    else (if script[0].response.Accepted? then 1 else 0) + AcceptedCount(script[1..])
  }

  lemma {:induction false} AcceptedAppend(a: seq<Attempt>, b: seq<Attempt>)
    ensures AcceptedCount(a + b) == AcceptedCount(a) + AcceptedCount(b)
    decreases |a|
  {
    if a == [] {
      assert a + b == b;
    } else {
      assert (a + b)[1..] == a[1..] + b;
      AcceptedAppend(a[1..], b);
    }
  }

  function Min(a: int, b: int): int {
    if a < b then a else b
  }

  /** The loop keeps the turn invariant, and every accepted attempt it reads
      counts one move until the limit is reached: the counter ends at the
      limit or at the number of accepted attempts, whichever is smaller. */
  lemma {:induction false} RunTotal(s: GameState, script: seq<Attempt>)
    requires TurnInvariant(s.current, s.total)
    ensures TurnInvariant(Run(s, script).current, Run(s, script).total)
    ensures Run(s, script).total == Min(TurnLimit, s.total + AcceptedCount(script))
    decreases |script|
  {
    if LimitReached(s.total) || script == [] {
    } else {
      RunTotal(Iterate(s, script[0]), script[1..]);
    }
  }

  /** With enough accepted attempts the loop stops with exactly thirty
      moves made, and the first player would be next to move. */
  lemma RunEndsAtLimit(s: GameState, script: seq<Attempt>)
    requires TurnInvariant(s.current, s.total)
    requires AcceptedCount(script) >= TurnLimit - s.total
    ensures Run(s, script).total == TurnLimit
    ensures Run(s, script).current == P1
  {
    RunTotal(s, script);
  }

  // ---------------------------------------------------------------------
  // Who moves when

  /** The players who made the valid moves of the loop, in order. */
  function Movers(s: GameState, script: seq<Attempt>): seq<Side>
    decreases |script|
  {
    if LimitReached(s.total) || script == [] then []
    else (if script[0].response.Accepted? then [s.current] else [])
         + Movers(Iterate(s, script[0]), script[1..])
  }

  /** n turns taken alternately, starting with first. */
  function Alternating(first: Side, n: nat): seq<Side>
    decreases n
  {
    if n == 0 then [] else [first] + Alternating(Other(first), n - 1)
  }

  function Count(sides: seq<Side>, side: Side): nat {
    if sides == [] then 0
    else (if sides[0] == side then 1 else 0) + Count(sides[1..], side)
  }

  /** Valid moves strictly alternate between the players, starting with the
      one whose turn it is, however many invalid attempts come between. */
  lemma {:induction false} MoversAlternate(s: GameState, script: seq<Attempt>)
    requires TurnInvariant(s.current, s.total)
    ensures Run(s, script).total >= s.total
    ensures Movers(s, script) == Alternating(s.current, Run(s, script).total - s.total)
    decreases |script|
  {
    if LimitReached(s.total) || script == [] {
    } else {
      var s' := Iterate(s, script[0]);
      RunTotal(s, script);
      MoversAlternate(s', script[1..]);
    }
  }

  /** In 2k alternating turns each player has k of them. */
  lemma {:induction false} AlternatingCount(first: Side, k: nat)
    ensures Count(Alternating(first, 2 * k), P1) == k
    ensures Count(Alternating(first, 2 * k), P2) == k
  {
    if k > 0 {
      var rest := Alternating(first, 2 * (k - 1));
      AlternatingCount(first, k - 1);
      assert Alternating(Other(Other(first)), 2 * (k - 1)) == rest;
      var turns := Alternating(first, 2 * k);
      assert Alternating(Other(first), 2 * k - 1) == [Other(first)] + rest;
      assert turns == [first] + ([Other(first)] + rest);
      assert turns[1..] == [Other(first)] + rest;
      assert turns[1..][1..] == rest;
    }
  }

  /** A complete game from the start gives each player exactly fifteen valid moves. */
  lemma FifteenMovesEach(script: seq<Attempt>)
    requires AcceptedCount(script) >= TurnLimit
    ensures Count(Movers(Initial(), script), P1) == TurnLimit / 2
    ensures Count(Movers(Initial(), script), P2) == TurnLimit / 2
  {
    RunTotal(Initial(), script);
    MoversAlternate(Initial(), script);
    AlternatingCount(P1, TurnLimit / 2);
  }

  // ---------------------------------------------------------------------
  // The game object

  class Game {
    var Player1: Player
    var Player2: Player
    var CurrentTurn: Side
    var TotalTurns: int

    /** The two players and their position objects are distinct objects. */
    ghost predicate Valid()
      reads this, Player1, Player2
    {
      Player1 != Player2 && Player1.Position != Player2.Position
    }

    /** The game as a value. */
    function State(): GameState
      reads this, Player1, Player2, Player1.Position, Player2.Position
    {
      GameState(PlayerState(Player1.Name, Player1.Position.At(), Player1.GemCount),
                PlayerState(Player2.Name, Player2.Position.At(), Player2.GemCount),
                CurrentTurn, TotalTurns)
    }

    /** Sets up P1 at (0, 0) and P2 at (5, 5), P1 to move, no moves made. */
    constructor ()
      ensures Valid() && State() == Initial()
      ensures TurnInvariant(CurrentTurn, TotalTurns)
      ensures fresh(Player1) && fresh(Player2) && fresh(Player1.Position) && fresh(Player2.Position)
    {
      var position1 := new Position(0, 0);
      var position2 := new Position(5, 5);
      Player1 := new Player("P1", position1);
      Player2 := new Player("P2", position2);
      CurrentTurn := P1;
      TotalTurns := 0;
    }

    /** The game is over once the limit is reached; between moves that is
        exactly when thirty moves have been made and P1 would be next. */
    function IsGameOver(): (over: bool)
      reads this
      ensures TurnInvariant(CurrentTurn, TotalTurns) ==>
        (over <==> TotalTurns == TurnLimit && CurrentTurn == P1)
    {
      LimitReached(TotalTurns)
    }

    /** Hands the turn to the other player. */
    method SwitchTurn()
      modifies this`CurrentTurn
      ensures CurrentTurn == Other(old(CurrentTurn))
    {
      CurrentTurn := if CurrentTurn == P1 then P2 else P1;
    }

    /** The board's update of the player whose turn it is, after a valid move. */
    method UpdateCurrentPlayer(at: Coord, gems: int)
      requires Valid()
      modifies Player1`GemCount, Player2`GemCount, Player1.Position, Player2.Position
      ensures Valid()
      ensures State() == old(State()).(player1 := if CurrentTurn == P1 then old(State()).player1.(at := at, gems := gems) else old(State()).player1,
                                       player2 := if CurrentTurn == P2 then old(State()).player2.(at := at, gems := gems) else old(State()).player2)
    {
      var current := if CurrentTurn == P1 then Player1 else Player2;
      current.Position.X := at.x;
      current.Position.Y := at.y;
      current.GemCount := gems;
    }

    /** Runs the game loop over script: each pass reads one attempt; an
        accepted one updates the current player, switches the turn and
        counts a move, a rejected one changes nothing.  The loop stops as
        soon as thirty moves have been made, having read used attempts, and
        the result is announced. */
    method Start(script: seq<Attempt>) returns (used: nat, outcome: Outcome)
      requires Valid() && TurnInvariant(CurrentTurn, TotalTurns)
      requires AcceptedCount(script) >= TurnLimit - TotalTurns
      modifies this, Player1`GemCount, Player2`GemCount, Player1.Position, Player2.Position
      ensures Valid() && Player1 == old(Player1) && Player2 == old(Player2)
      ensures Player1.Position == old(Player1.Position) && Player2.Position == old(Player2.Position)
      ensures State() == Run(old(State()), script)
      ensures TotalTurns == TurnLimit && CurrentTurn == P1
      ensures used <= |script| && AcceptedCount(script[..used]) == TurnLimit - old(TotalTurns)
      ensures used == 0 || script[used - 1].response.Accepted?
      ensures outcome == Decide(Player1.GemCount, Player2.GemCount)
    {
      var i := 0;
      while !IsGameOver()
        invariant 0 <= i <= |script|
        invariant Valid() && Player1 == old(Player1) && Player2 == old(Player2)
        invariant Player1.Position == old(Player1.Position) && Player2.Position == old(Player2.Position)
        invariant TurnInvariant(CurrentTurn, TotalTurns)
        invariant Run(State(), script[i..]) == Run(old(State()), script)
        invariant AcceptedCount(script[..i]) == TotalTurns - old(TotalTurns)
        invariant AcceptedCount(script[i..]) >= TurnLimit - TotalTurns
        invariant i > 0 && script[i - 1].response.Rejected? ==> TotalTurns < TurnLimit
        decreases |script| - i
      {
        assert script[i..][1..] == script[i + 1..];
        assert script[..i + 1] == script[..i] + [script[i]];
        AcceptedAppend(script[..i], [script[i]]);
        ghost var before := State();
        var attempt := script[i];
        if attempt.response.Accepted? {
          UpdateCurrentPlayer(attempt.response.at, attempt.response.gems);
          SwitchTurn();
          TotalTurns := TotalTurns + 1;
        }
        assert State() == Iterate(before, attempt);
        i := i + 1;
      }
      used := i;
      outcome := AnnounceWinner();
    }

    /** The announcement at the end of the game: P1 wins with strictly more
        gems, P2 wins with strictly more gems, otherwise it is a tie. */
    method AnnounceWinner() returns (outcome: Outcome)
      ensures outcome == Player1Wins <==> Player1.GemCount > Player2.GemCount
      ensures outcome == Player2Wins <==> Player2.GemCount > Player1.GemCount
      ensures outcome == Tie <==> Player1.GemCount == Player2.GemCount
    {
      outcome := Decide(Player1.GemCount, Player2.GemCount);
    }
  }
}
