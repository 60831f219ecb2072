/**
 * The enemy's random steering of src/enemies.rs: keep the neighbours that
 * are open and do not turn back, then pick one of them at random.
 */
module EnemySteering {
  import opened Movement
  import opened Boards
  import opened Enemies

  /** A neighbouring cell of the board, with the heading that leads to it. */
  type Neighbour = (Directions, CellType)

  /** A cell an enemy may move into: neither a wall nor off the board. */
  predicate Open(c: CellType)
  {
    !(c.Wall? || c.Outside?)
  }

  /** The first filter: the neighbours whose cell is open, in order. */
  function RetainOpen(ns: seq<Neighbour>): (rs: seq<Neighbour>)
    ensures |rs| <= |ns|
    ensures forall n :: n in rs <==> n in ns && Open(n.1)
  {
    if ns == [] then []
    else
      var last := ns[|ns| - 1];
      RetainOpen(ns[..|ns| - 1]) + (if Open(last.1) then [last] else [])
  }

  /** The second filter: the neighbours that do not reverse the current heading, in order. */
  function RetainNotOpposite(ns: seq<Neighbour>, current: Directions): (rs: seq<Neighbour>)
    ensures |rs| <= |ns|
    ensures forall n :: n in rs <==> n in ns && !IsOpposite(current, n.0)
  {
    if ns == [] then []
    else
      var last := ns[|ns| - 1];
      RetainNotOpposite(ns[..|ns| - 1], current) + (if IsOpposite(current, last.0) then [] else [last])
  }

  /** What survives both filters: the candidates the random pick chooses among. */
  function Candidates(ns: seq<Neighbour>, current: Directions): seq<Neighbour>
  {
    RetainNotOpposite(RetainOpen(ns), current)
  }

  /** A candidate is exactly an open neighbour that does not reverse the heading. */
  lemma CandidatesExact(ns: seq<Neighbour>, current: Directions, n: Neighbour)
    ensures n in Candidates(ns, current) <==> n in ns && Open(n.1) && n.0 != Opposite(current)
  {
  }

  /**
   * The headings the enemy may end up with: those of the candidates.
   * Each is one that leads to an open cell, and none is the reversal.
   */
  function Choices(ns: seq<Neighbour>, current: Directions): (ds: set<Directions>)
    ensures forall d :: d in ds ==> d != Opposite(current)
    ensures forall d :: d in ds ==> exists c :: (d, c) in ns && Open(c)
    ensures forall d, c :: (d, c) in ns && Open(c) && d != Opposite(current) ==> d in ds
    ensures ds == {} <==> Candidates(ns, current) == []
  {
    var cs := Candidates(ns, current);
    assert cs != [] ==> cs[0] in cs;
    set n | n in cs :: n.0
  }

  /**
   * At a dead end, where the only open neighbour is back the way the enemy
   * came, no candidate survives and the pick has nothing to choose from.
   */
  lemma DeadEndHasNoChoice(ns: seq<Neighbour>, current: Directions)
    requires forall n :: n in ns && Open(n.1) ==> n.0 == Opposite(current)
    ensures Candidates(ns, current) == []
  {
    assert forall d :: d !in Choices(ns, current);
    assert Choices(ns, current) == {};
  }

  /**
   * In a corridor, where the only open neighbours are straight ahead and
   * straight back, the enemy has one choice: to keep its heading.
   */
  lemma CorridorKeepsHeading(ns: seq<Neighbour>, current: Directions, ahead: CellType)
    requires (current, ahead) in ns && Open(ahead)
    requires forall n :: n in ns && Open(n.1) ==> SameAxis(current, n.0)
    ensures Choices(ns, current) == {current}
  {
    var cs := Candidates(ns, current);
    assert (current, ahead) in cs;
    forall d | d in Choices(ns, current)
      ensures d == current
    {
      var n :| n in cs && n.0 == d;
    }
  }

  /**
   * Enemy::update_direction for the Random strategy: the neighbour list is
   * filtered to open cells, then to headings that do not reverse the
   * current one, and one survivor's heading becomes the current heading.
   * The random pick is a nondeterministic choice. The source unwraps the
   * pick, so it demands that some candidate survives. The source calls a
   * Board::get_neighbours that it does not define, so the model takes it
   * as a parameter.
   */
  method UpdateDirection(enemy: Enemy, pos: Position, dir: Direction, board: Board,
                         getNeighbours: (Board, real, real) -> seq<Neighbour>)
    requires Candidates(getNeighbours(board, pos.x, pos.y), dir.current) != []
    modifies dir`current
    ensures dir.current in Choices(getNeighbours(board, pos.x, pos.y), old(dir.current))
  {
    match enemy.enemyAi
    case Random =>
      var directions := getNeighbours(board, pos.x, pos.y);
      directions := RetainOpen(directions);
      directions := RetainNotOpposite(directions, dir.current);
      var k :| 0 <= k < |directions|;
      assert directions[k] in directions;
      dir.current := directions[k].0;
  }
}
