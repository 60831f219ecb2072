/**
 * Continuous positions, headings and the per-frame displacement system of
 * src/movement.rs.
 */
module Movement {
  import opened Config

  /** The four headings an entity can travel in. */
  datatype Directions = Up | Down | Left | Right

  /**
   * The reversal pairs: Up/Down and Left/Right. The source compares
   * headings against exactly these four pairs when it reverses the player
   * and when an enemy refuses to turn back.
   */
  predicate IsOpposite(a: Directions, b: Directions)
  {
    match (a, b)
    case (Up, Down) => true
    case (Down, Up) => true
    case (Left, Right) => true
    case (Right, Left) => true
    case _ => false
  }

  /** The reverse of a heading: the one heading opposite to it. */
  function Opposite(d: Directions): (r: Directions)
    ensures IsOpposite(d, r) && IsOpposite(r, d)
    ensures forall e :: IsOpposite(d, e) <==> e == r
    ensures r != d
  {
    match d
    case Up => Down
    case Down => Up
    case Left => Right
    case Right => Left
  }

  /** The two headings along the same axis as `d`. */
  predicate SameAxis(d: Directions, e: Directions)
  {
    e == d || IsOpposite(d, e)
  }

  /**
   * The heading component of an entity: where it travels now and where
   * it has been asked to travel next. The source updates both fields
   * in place through a mutable borrow.
   */
  class Direction {
    var current: Directions
    var next: Directions

    constructor (current: Directions, next: Directions)
      ensures this.current == current && this.next == next
    {
      this.current := current;
      this.next := next;
    }
  }

  /** A position in cell units; fractional while between two cells. */
  datatype Position = Position(x: real, y: real)

  /** A render transform (translation only). */
  datatype Transform = Transform(x: real, y: real, z: real)

  /**
   * The pixel translation of a position: the centre of the cell square,
   * with the y axis pointing down the maze and up the screen.
   */
  function GetTransform(p: Position): (t: Transform)
    ensures t.z == 0.0
    ensures CellSize * p.x < t.x < CellSize * (p.x + 1.0)
    ensures CellSize * p.y < -t.y < CellSize * (p.y + 1.0)
    ensures 2.0 * t.x == CellSize * (2.0 * p.x + 1.0)
    ensures 2.0 * t.y == -CellSize * (2.0 * p.y + 1.0)
  {
    Transform(p.x * CellSize + (CellSize / 2.0), -(CellSize / 2.0) - p.y * CellSize, 0.0)
  }

  /** The position a transform is the centre of: the inverse of GetTransform. */
  function TransformPosition(t: Transform): Position
  {
    Position((t.x - CellSize / 2.0) / CellSize, (-t.y - CellSize / 2.0) / CellSize)
  }

  /** GetTransform loses nothing: the position can be read back from it. */
  lemma TransformRoundTrip(p: Position)
    ensures TransformPosition(GetTransform(p)) == p
  {
  }

  /** The screen x grows with the column and the screen y falls with the row. */
  lemma TransformMonotone(p: Position, q: Position)
    ensures p.x < q.x <==> GetTransform(p).x < GetTransform(q).x
    ensures p.y < q.y <==> GetTransform(p).y > GetTransform(q).y
  {
  }

  /** The per-second velocity vector a heading gives to a speed. */
  function Delta(d: Directions, velocity: real): (real, real)
  {
    match d
    case Up => (0.0, 0.0 - velocity)
    case Down => (0.0, 0.0 + velocity)
    case Left => (0.0 - velocity, 0.0)
    case Right => (0.0 + velocity, 0.0)
  }

  function Abs(r: real): real
  {
    if r < 0.0 then -r else r
  }

  /** Manhattan distance between two positions. */
  function Manhattan(p: Position, q: Position): real
  {
    Abs(p.x - q.x) + Abs(p.y - q.y)
  }

  /**
   * Where one frame of travel takes a position: only the axis of the
   * heading moves, by exactly velocity * dt, forwards for Down and Right
   * and backwards for Up and Left. No wall and no board edge is consulted.
   */
  function Displaced(p: Position, d: Directions, velocity: real, dt: real): (q: Position)
    ensures (d == Up || d == Down) ==> q.x == p.x
    ensures (d == Left || d == Right) ==> q.y == p.y
    ensures (d == Down || d == Right) ==> q.x + q.y == p.x + p.y + velocity * dt
    ensures (d == Up || d == Left) ==> q.x + q.y == p.x + p.y - velocity * dt
    ensures Manhattan(p, q) == Abs(velocity * dt)
  {
    var (dx, dy) := Delta(d, velocity);
    Position(p.x + dx * dt, p.y + dy * dt)
  }

  /** A frame of travel followed by one frame in the reverse heading returns to the start. */
  lemma {:induction false} ReversalCancels(p: Position, d: Directions, velocity: real, dt: real)
    ensures Displaced(Displaced(p, d, velocity, dt), Opposite(d), velocity, dt) == p
  {
  }

  /**
   * One row of the movement query: a speed, a heading, and the position and
   * transform the system rewrites.
   */
  class Body {
    const velocity: real
    const dir: Direction
    var position: Position
    var transform: Transform

    constructor (velocity: real, dir: Direction, position: Position)
      ensures this.velocity == velocity && this.dir == dir
      ensures this.position == position && transform == GetTransform(position)
    {
      this.velocity := velocity;
      this.dir := dir;
      this.position := position;
      this.transform := GetTransform(position);
    }
  }

  /**
   * The per-frame movement system: every body in the query moves by
   * Displaced along its current heading (its buffered next heading is
   * ignored), and its transform is recomputed from the new position.
   */
  method UpdatePosition(bodies: seq<Body>, dt: real)
    requires forall i, j :: 0 <= i < j < |bodies| ==> bodies[i] != bodies[j]
    modifies set b | b in bodies
    ensures forall i :: 0 <= i < |bodies| ==>
      bodies[i].position == Displaced(old(bodies[i].position), bodies[i].dir.current, bodies[i].velocity, dt)
    ensures forall i :: 0 <= i < |bodies| ==> bodies[i].transform == GetTransform(bodies[i].position)
  {
    var i := 0;
    while i < |bodies|
      invariant 0 <= i <= |bodies|
      invariant forall k :: 0 <= k < i ==>
        bodies[k].position == Displaced(old(bodies[k].position), bodies[k].dir.current, bodies[k].velocity, dt)
      invariant forall k :: 0 <= k < i ==> bodies[k].transform == GetTransform(bodies[k].position)
      invariant forall k :: i <= k < |bodies| ==> bodies[k].position == old(bodies[k].position)
    {
      var body := bodies[i];
      body.position := Displaced(body.position, body.dir.current, body.velocity, dt);
      body.transform := GetTransform(body.position);
      i := i + 1;
    }
  }
}
