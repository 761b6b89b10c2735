/** Positions and players of the Gem Hunters grid game.  A player moves one
    cell at a time in a cardinal direction named by a key character; the
    player itself knows nothing about the size of the grid. */
module Players {

  /** A grid coordinate as a value.  y grows downwards, as rows on a screen. */
  datatype Coord = Coord(x: int, y: int)

  /** The four keys a player reacts to: upper-case U, D, L and R only. */
  predicate IsDirection(direction: char) {
    direction == 'U' || direction == 'D' || direction == 'L' || direction == 'R'
  }

  function Abs(n: int): nat {
    if n < 0 then -n else n
  }

  /** The coordinate a player at p reaches with one press of direction.
      A direction key moves exactly one step along its own axis, towards
      smaller y for U and smaller x for L; any other key moves nothing. */
  function Moved(p: Coord, direction: char): (r: Coord)
    ensures Abs(r.x - p.x) + Abs(r.y - p.y) == if IsDirection(direction) then 1 else 0
    ensures r.x == p.x <==> direction != 'L' && direction != 'R'
    ensures r.y == p.y <==> direction != 'U' && direction != 'D'
    ensures r.x < p.x <==> direction == 'L'
    ensures r.y < p.y <==> direction == 'U'
  {
    if direction == 'U' then Coord(p.x, p.y - 1)
    else if direction == 'D' then Coord(p.x, p.y + 1)
    else if direction == 'L' then Coord(p.x - 1, p.y)
    else if direction == 'R' then Coord(p.x + 1, p.y)
    else p
  }

  /** The key that undoes a direction key. */
  function Opposite(direction: char): (r: char)
    requires IsDirection(direction)
    ensures IsDirection(r) && r != direction
  {
    if direction == 'U' then 'D'
    else if direction == 'D' then 'U'
    else if direction == 'L' then 'R'
    else 'L'
  }

  /** Moves are not clamped: pressing the opposite key steps straight back,
      wherever the player stands, so a player can leave any bounded area. */
  lemma MovedUndone(p: Coord, direction: char)
    requires IsDirection(direction)
    ensures Moved(Moved(p, direction), Opposite(direction)) == p
    ensures Moved(p, direction) != p
  {
  }

  /** No clamping at the corners the game starts from: stepping up or left
      from (0, 0) gives a negative coordinate, stepping down or right from
      (5, 5) gives 6. */
  lemma MovedUnclamped()
    ensures Moved(Coord(0, 0), 'U') == Coord(0, -1) && Moved(Coord(0, 0), 'L') == Coord(-1, 0)
    ensures Moved(Coord(5, 5), 'D') == Coord(5, 6) && Moved(Coord(5, 5), 'R') == Coord(6, 5)
  {
  }

  /** A mutable pair of grid coordinates. */
  class Position {
    var X: int
    var Y: int

    constructor (x: int, y: int)
      ensures X == x && Y == y
    {
      X := x;
      Y := y;
    }

    function At(): Coord
      reads this
    {
      Coord(X, Y)
    }
  }

  /** A named player with a position object and a gem count. */
  class Player {
    var Name: string
    var Position: Position
    var GemCount: int

    /** A new player has collected nothing yet; it keeps the position object
        it is given (no copy is made). */
    constructor (name: string, position: Position)
      ensures Name == name && Position == position && GemCount == 0
    {
      Name := name;
      Position := position;
      GemCount := 0;
    }

    /** Applies one key press to the player's position object in place.
        Only the coordinate the key names changes, by exactly one; an
        unknown key changes nothing; name, gem count and the identity of
        the position object never change. */
    method Move(direction: char)
      modifies Position
      ensures Position.At() == Moved(old(Position.At()), direction)
      ensures direction == 'U' ==> Position.X == old(Position.X) && Position.Y == old(Position.Y) - 1
      ensures direction == 'D' ==> Position.X == old(Position.X) && Position.Y == old(Position.Y) + 1
      ensures direction == 'L' ==> Position.X == old(Position.X) - 1 && Position.Y == old(Position.Y)
      ensures direction == 'R' ==> Position.X == old(Position.X) + 1 && Position.Y == old(Position.Y)
      ensures !IsDirection(direction) ==> unchanged(Position)
      ensures unchanged(this)
    {
      if direction == 'U' {
        Position.Y := Position.Y - 1;
      } else if direction == 'D' {
        Position.Y := Position.Y + 1;
      } else if direction == 'L' {
        Position.X := Position.X - 1;
      } else if direction == 'R' {
        Position.X := Position.X + 1;
      }
    }
  }
}
