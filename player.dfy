/**
 * The player's heading logic of src/player.rs: the buffered turn taken when
 * the way is clear, and the input handler that reverses on the spot.
 */
module Players {
  import opened Movement
  import opened Boards
  import Input

  /** Whether the player is moving; the default is Moving. */
  datatype PlayerState = Moving | Idle

  /**
   * The heading the player ends up with after one buffered-turn check,
   * given the cell one step away in the requested heading: the request is
   * taken unless that cell is a wall of any kind.
   */
  function TurnedHeading(current: Directions, next: Directions, target: CellType): (r: Directions)
    ensures r == current || r == next
    ensures r == next <==> current == next || !target.Wall?
  {
    if current == next then current
    else if target.Wall? then current
    else next
  }

  /**
   * Player::update_direction. Nothing happens when the player already heads
   * where it was asked to; otherwise the cell one step away in the
   * requested heading is looked up and the turn is taken unless it is a
   * wall. The requested heading itself is never changed. The source calls
   * a Position::get_target_cell that it does not define, so the model
   * takes it as a parameter.
   */
  method UpdateDirection(pos: Position, dir: Direction, board: Board, targetCell: (Position, Directions) -> Position)
    requires board.Valid()
    modifies dir`current
    ensures old(dir.current) == old(dir.next) ==> dir.current == old(dir.current)
    ensures dir.current == TurnedHeading(old(dir.current), dir.next, GetCellAt(board, targetCell(pos, dir.next)))
  {
    if dir.current == dir.next {
      return;
    }
    var next := targetCell(pos, dir.next);
    if !GetCellAt(board, next).Wall? {
      dir.current := dir.next;
    }
  }

  /**
   * A target cell off the board is Outside, which is not a wall, so the
   * player may always turn towards the edge of the maze.
   */
  lemma TurnTowardsEdgeAllowed(board: Board, current: Directions, next: Directions, target: Position)
    requires board.Valid()
    requires target.x < 0.0 || target.x >= board.columns as real || target.y < 0.0 || target.y >= board.rows as real
    ensures TurnedHeading(current, next, GetCellAt(board, target)) == next
  {
    assert GetCellAt(board, target).Outside?;
  }

  /** The heading an input event asks for. */
  function ToDirection(e: Input.InputDirectionEvent): Directions
  {
    match e
    case Up => Directions.Up
    case Down => Directions.Down
    case Left => Directions.Left
    case Right => Directions.Right
  }

  /**
   * The current heading after one input event: an exact reversal is taken
   * at once, with no look at the board; any other request leaves the
   * current heading alone.
   */
  function Steer(current: Directions, e: Input.InputDirectionEvent): (r: Directions)
    ensures r != current <==> IsOpposite(current, ToDirection(e))
    ensures r != current ==> r == Opposite(current)
  {
    var next := ToDirection(e);
    match (next, current)
    case (Up, Down) => next
    case (Down, Up) => next
    case (Left, Right) => next
    case (Right, Left) => next
    case _ => current
  }

  /** The current heading after a batch of input events, read in order. */
  function SteerAll(current: Directions, events: seq<Input.InputDirectionEvent>): (r: Directions)
    ensures SameAxis(current, r)
  {
    if events == [] then current
    else Steer(SteerAll(current, events[..|events| - 1]), events[|events| - 1])
  }

  /**
   * player_movement_control: every event of the batch overwrites the
   * requested heading, and a request for the exact reverse of the current
   * heading is taken at once.
   */
  method PlayerMovementControl(direction: Direction, events: seq<Input.InputDirectionEvent>)
    modifies direction
    ensures events == [] ==> direction.next == old(direction.next)
    ensures events != [] ==> direction.next == ToDirection(events[|events| - 1])
    ensures direction.current == SteerAll(old(direction.current), events)
  {
    var i := 0;
    while i < |events|
      invariant 0 <= i <= |events|
      invariant i == 0 ==> direction.next == old(direction.next)
      invariant i > 0 ==> direction.next == ToDirection(events[i - 1])
      invariant direction.current == SteerAll(old(direction.current), events[..i])
    {
      assert events[..i + 1][..i] == events[..i];
      match events[i] {
        case Up => direction.next := Directions.Up;
        case Down => direction.next := Directions.Down;
        case Left => direction.next := Directions.Left;
        case Right => direction.next := Directions.Right;
      }
      match (direction.next, direction.current) {
        case (Up, Down) => direction.current := direction.next;
        case (Down, Up) => direction.current := direction.next;
        case (Left, Right) => direction.current := direction.next;
        case (Right, Left) => direction.current := direction.next;
        case _ =>
      }
      i := i + 1;
    }
    assert events[..i] == events;
  }

  /**
   * A batch with no reversal request in it never changes the current
   * heading: same-heading and perpendicular requests are only buffered.
   */
  lemma {:induction false} NoReversalKeepsHeading(current: Directions, events: seq<Input.InputDirectionEvent>)
    requires forall k :: 0 <= k < |events| ==> !IsOpposite(current, ToDirection(events[k]))
    ensures SteerAll(current, events) == current
  {
    if events != [] {
      var init := events[..|events| - 1];
      assert forall k :: 0 <= k < |init| ==> init[k] == events[k];
      NoReversalKeepsHeading(current, init);
    }
  }

  /**
   * Steering a batch and then another is steering the two in sequence, so
   * the events of a frame may be handled in any split.
   */
  lemma {:induction false} SteerAllAppend(current: Directions, a: seq<Input.InputDirectionEvent>, b: seq<Input.InputDirectionEvent>)
    ensures SteerAll(current, a + b) == SteerAll(SteerAll(current, a), b)
  {
    if b != [] {
      var init := b[..|b| - 1];
      assert (a + b)[..|a + b| - 1] == a + init;
      assert (a + b)[|a + b| - 1] == b[|b| - 1];
      SteerAllAppend(current, a, init);
    } else {
      assert a + b == a;
    }
  }

  /** Asking for the reverse and then for the original heading returns to it. */
  lemma ReverseTwice(current: Directions, e: Input.InputDirectionEvent, f: Input.InputDirectionEvent)
    requires ToDirection(e) == Opposite(current) && ToDirection(f) == current
    ensures SteerAll(current, [e, f]) == current
  {
    assert [e, f][..1] == [e];
    assert [e][..0] == [];
  }
}
