/** The texture handles the board asks for; the asset table itself is not modelled. */
module Assets {
  datatype GameAssets =
    | Player
    | WallVertical
    | WallHorizontal
    | WallTopLeft
    | WallTopRight
    | WallBottomLeft
    | WallBottomRight
    | Dot
    | PowerPill
}

/**
 * The maze of src/board.rs: the cell classification, the text-layout parser
 * that builds the row-major grid and the enemy spawn list, and the lookups
 * the other systems make.
 */
module Boards {
  import opened Wrappers
  import opened Config
  import opened Movement
  import Enemies
  import Pickups
  import Assets
  import Collision

  datatype WallType = Vertical | Horizontal | TopLeft | TopRight | BottomLeft | BottomRight

  /** What a cell of the maze holds; Outside is only ever returned for off-grid queries. */
  datatype CellType = Wall(wallType: WallType) | Dot | PowerPill | Empty | Outside

  /** Why building a board from a layout aborts. */
  datatype LayoutError =
    | InvalidBoardLine(row: int)
    | InvalidCell(glyph: char)
    | InvalidWallType(column: int, row: int, up: char, down: char, left: char, right: char)

  /** The maze: its size, its cells row by row, and the enemies found in it. */
  datatype Board = Board(columns: int, rows: int, cells: seq<CellType>, enemies: seq<Enemies.Enemy>)
  {
    /** What every board the parser builds satisfies. */
    predicate Valid()
    {
      && 0 <= rows
      && 0 <= columns
      && |cells| == rows * columns
      && forall i :: 0 <= i < |cells| ==> !cells[i].Outside?
    }
  }

  // ---------------------------------------------------------------------------
  // Index arithmetic
  // ---------------------------------------------------------------------------

  lemma RowMajorBound(row: int, column: int, rows: int, columns: int)
    requires 0 <= row < rows && 0 <= column < columns
    ensures 0 <= row * columns + column < rows * columns
  {
    var below := rows - (row + 1);
    assert row * columns + columns == (row + 1) * columns;
    assert rows * columns == (row + 1) * columns + below * columns;
    assert below * columns >= 0;
  }

  /** The cell at a row and column of the grid. */
  function CellAt(b: Board, row: int, column: int): (c: CellType)
    requires b.Valid()
    requires 0 <= row < b.rows && 0 <= column < b.columns
    ensures !c.Outside?
  {
    RowMajorBound(row, column, b.rows, b.columns);
    b.cells[row * b.columns + column]
  }

  /**
   * The cell under a position, truncating each coordinate to its cell;
   * Outside exactly when the position is off the grid.
   */
  function GetCell(b: Board, x: real, y: real): (r: CellType)
    requires b.Valid()
    ensures r.Outside? <==> (x < 0.0 || x >= b.columns as real || y < 0.0 || y >= b.rows as real)
    ensures !r.Outside? ==> 0 <= y.Floor < b.rows && 0 <= x.Floor < b.columns && r == CellAt(b, y.Floor, x.Floor)
  {
    if x < 0.0 || x >= b.columns as real then Outside
    else if y < 0.0 || y >= b.rows as real then Outside
    else
      FloorBelow(x, b.columns);
      FloorBelow(y, b.rows);
      CellAt(b, y.Floor, x.Floor)
  }

  /** Truncating a coordinate inside [0, n) gives a cell index inside [0, n). */
  lemma FloorBelow(x: real, n: int)
    requires 0.0 <= x < n as real
    ensures 0 <= x.Floor < n
  {
    assert x.Floor as real <= x;
  }

  /** The cell under a position. */
  function GetCellAt(b: Board, p: Position): CellType
    requires b.Valid()
  {
    GetCell(b, p.x, p.y)
  }

  /** The board's size as (rows, columns); the two multiply to the number of cells. */
  function GetDimensions(b: Board): (dims: (nat, nat))
    requires b.Valid()
    ensures dims.0 * dims.1 == |b.cells|
    ensures dims == (b.rows, b.columns)
  {
    (b.rows, b.columns)
  }

  /** The cell position of the index-th stored cell: column index % columns, row index / columns. */
  function CellPosition(index: nat, columns: int): Position
    requires columns > 0
  {
    Position((index % columns) as real, (index / columns) as real)
  }

  /**
   * The position the spawner gives the index-th cell names that same cell
   * again when the board is queried there.
   */
  lemma {:induction false} CellPositionRoundTrip(b: Board, index: nat)
    requires b.Valid() && index < |b.cells|
    ensures b.columns > 0
    ensures GetCellAt(b, CellPosition(index, b.columns)) == b.cells[index]
  {
    var row, column := index / b.columns, index % b.columns;
    assert index == row * b.columns + column;
    var p := CellPosition(index, b.columns);
    assert p.x.Floor == column && p.y.Floor == row;
  }

  // ---------------------------------------------------------------------------
  // Cell assets and pickups
  // ---------------------------------------------------------------------------

  /** The texture of a cell; only empty and off-grid cells have none. */
  function GetAsset(c: CellType): (a: Option<Assets.GameAssets>)
    ensures a.None? <==> c == Empty || c == Outside
    ensures a.Some? ==> a.value != Assets.Player
  {
    match c
    case Wall(Vertical) => Some(Assets.WallVertical)
    case Wall(Horizontal) => Some(Assets.WallHorizontal)
    case Wall(TopLeft) => Some(Assets.WallTopLeft)
    case Wall(TopRight) => Some(Assets.WallTopRight)
    case Wall(BottomLeft) => Some(Assets.WallBottomLeft)
    case Wall(BottomRight) => Some(Assets.WallBottomRight)
    case Dot => Some(Assets.Dot)
    case PowerPill => Some(Assets.PowerPill)
    case Empty => None
    case Outside => None
  }

  /** Different drawn cells never share a texture. */
  lemma AssetsDistinct(c: CellType, d: CellType)
    requires GetAsset(c).Some? && GetAsset(c) == GetAsset(d)
    ensures c == d
  {
  }

  /** A pickup the spawner places on a dot or power-pill cell. */
  datatype PickupSpawn = PickupSpawn(kind: Pickups.PickupKind, position: Position, pickup: Pickups.Pickup, collider: Collision.Collider)

  /**
   * The pickup spawned for the index-th cell: dots are worth the dot score
   * and power pills the power-pill score, both with the pickup radius, placed
   * at the cell's position; other cells spawn none.
   */
  function SpawnPickup(c: CellType, index: nat, columns: int): (s: Option<PickupSpawn>)
    requires columns > 0
    ensures s.Some? <==> c == Dot || c == PowerPill
    ensures s.Some? ==> s.value.position == CellPosition(index, columns) && s.value.collider.distance == PickupRange
    ensures c == Dot ==> s.value.kind == Pickups.DotMarker && Pickups.GetValue(s.value.pickup) == DotScore
    ensures c == PowerPill ==> s.value.kind == Pickups.PowerPillMarker && Pickups.GetValue(s.value.pickup) == PowerPillScore
  {
    var position := CellPosition(index, columns);
    match c
    case Dot => Some(PickupSpawn(Pickups.DotMarker, position, Pickups.Pickup(DotScore), Collision.Collider(PickupRange)))
    case PowerPill => Some(PickupSpawn(Pickups.PowerPillMarker, position, Pickups.Pickup(PowerPillScore), Collision.Collider(PickupRange)))
    case _ => None
  }

  // ---------------------------------------------------------------------------
  // Text: UTF-8 lengths and the line splitter
  // ---------------------------------------------------------------------------

  /** The number of UTF-8 bytes that encode a character. */
  function CharWidth(c: char): nat
  {
    if c as int < 0x80 then 1 else if c as int < 0x800 then 2 else if c as int < 0x10000 then 3 else 4
  }

  /** The byte length of a string, which is what the source's len() measures. */
  function Utf8Len(s: string): nat
  {
    if s == [] then 0 else Utf8Len(s[..|s| - 1]) + CharWidth(s[|s| - 1])
  }

  /** A string is at least as many bytes long as it has characters. */
  lemma {:induction false} Utf8LenAtLeast(s: string)
    ensures Utf8Len(s) >= |s|
  {
    if s != [] {
      Utf8LenAtLeast(s[..|s| - 1]);
    }
  }

  predicate IsAscii(s: string)
  {
    forall i :: 0 <= i < |s| ==> s[i] as int < 0x80
  }

  /** For ASCII text, bytes and characters agree. */
  lemma {:induction false} Utf8LenAscii(s: string)
    requires IsAscii(s)
    ensures Utf8Len(s) == |s|
  {
    if s != [] {
      Utf8LenAscii(s[..|s| - 1]);
    }
  }

  /** The index of the first occurrence of a character. */
  function IndexOf(s: string, c: char): (i: nat)
    requires c in s
    ensures i < |s| && s[i] == c && c !in s[..i]
  {
    if s[0] == c then 0 else 1 + IndexOf(s[1..], c)
  }

  /** Drops one trailing carriage return. */
  function StripCr(line: string): string
  {
    if |line| > 0 && line[|line| - 1] == '\r' then line[..|line| - 1] else line
  }

  /**
   * The lines of a text as the standard library splits them: at each
   * line feed, dropping a carriage return just before it; a last line with
   * no line feed is kept as it is, and a final line feed adds no empty line.
   */
  function Lines(s: string): (ls: seq<string>)
    decreases |s|
  {
    if s == [] then []
    else if '\n' in s then
      var i := IndexOf(s, '\n');
      [StripCr(s[..i])] + Lines(s[i + 1..])
    else [s]
  }

  /** No line that the splitter yields contains a line feed. */
  lemma {:induction false} LinesHaveNoLineFeed(s: string)
    ensures forall k :: 0 <= k < |Lines(s)| ==> '\n' !in Lines(s)[k]
    decreases |s|
  {
    if s != [] && '\n' in s {
      var i := IndexOf(s, '\n');
      LinesHaveNoLineFeed(s[i + 1..]);
      var first := s[..i];
      assert '\n' !in first;
      assert forall c :: c in StripCr(first) ==> c in first;
    }
  }

  // ---------------------------------------------------------------------------
  // The layout grammar
  // ---------------------------------------------------------------------------

  /** A line is skipped when it has no wall, dot or power-pill glyph, or is a // comment. */
  predicate IsSkipped(line: string)
  {
    || !('+' in line || '-' in line || '|' in line || 'O' in line || '.' in line)
    || (|line| >= 2 && line[0] == '/' && line[1] == '/')
  }

  /** The lines that become board rows, in order. */
  function Accepted(lines: seq<string>): (acc: seq<string>)
    ensures |acc| <= |lines|
  {
    if lines == [] then []
    else
      var last := lines[|lines| - 1];
      Accepted(lines[..|lines| - 1]) + (if IsSkipped(last) then [] else [last])
  }

  /** Accepting lines distributes over concatenation. */
  lemma {:induction false} AcceptedAppend(a: seq<string>, b: seq<string>)
    ensures Accepted(a + b) == Accepted(a) + Accepted(b)
    decreases |b|
  {
    if b != [] {
      var b' := b[..|b| - 1];
      assert (a + b)[..|a + b| - 1] == a + b';
      AcceptedAppend(a, b');
    } else {
      assert a + b == a;
    }
  }

  /** The width the first accepted line fixes; zero when there is none. */
  function Width(acc: seq<string>): nat
  {
    if acc == [] then 0 else Utf8Len(acc[0])
  }

  /**
   * A wall glyph above or below a junction (v) and one beside it (h) form a
   * corner: a vertical wall meeting a horizontal wall or another junction,
   * or a junction meeting a horizontal wall.
   */
  predicate Connects(v: char, h: char)
  {
    (v == '|' && (h == '-' || h == '+')) || (v == '+' && h == '-')
  }

  /**
   * The corner a junction forms with its four neighbour glyphs. The patterns
   * are tried in the source's order, first match wins: the four corners with
   * a plain vertical and a plain horizontal wall, then the four where one of
   * them is another junction. None when no pattern matches.
   */
  function WallTypeOf(up: char, down: char, left: char, right: char): (r: Option<WallType>)
    ensures r.None? <==> !Connects(down, right) && !Connects(down, left) && !Connects(up, left) && !Connects(up, right)
    ensures r == Some(TopLeft) ==> Connects(down, right)
    ensures r == Some(TopRight) ==> Connects(down, left)
    ensures r == Some(BottomRight) ==> Connects(up, left)
    ensures r == Some(BottomLeft) ==> Connects(up, right)
    ensures r.Some? ==> r.value != Vertical && r.value != Horizontal
  {
    if down == '|' && right == '-' then Some(TopLeft)
    else if down == '|' && left == '-' then Some(TopRight)
    else if up == '|' && left == '-' then Some(BottomRight)
    else if up == '|' && right == '-' then Some(BottomLeft)
    else if (down == '|' && right == '+') || (down == '+' && right == '-') then Some(TopLeft)
    else if (down == '|' && left == '+') || (down == '+' && left == '-') then Some(TopRight)
    else if (up == '|' && left == '+') || (up == '+' && left == '-') then Some(BottomRight)
    else if (up == '|' && right == '+') || (up == '+' && right == '-') then Some(BottomLeft)
    else None
  }

  /** First match wins: a wall below and a wall to the right make a top-left corner whatever is above or to the left. */
  lemma TopLeftHasPriority(up: char, left: char)
    ensures WallTypeOf(up, '|', left, '-') == Some(TopLeft)
  {
  }

  /**
   * The plain-wall patterns are tried before those with a junction
   * neighbour: a vertical bar below, a horizontal wall to the left and a
   * junction to the right make a top-right corner, not a top-left one.
   */
  lemma PlainWallsBeforeJunctions(up: char)
    ensures WallTypeOf(up, '|', '-', '+') == Some(TopRight)
  {
  }

  /**
   * The glyph at a row and column of the raw layout text, which still holds
   * its line feeds: the index is row * (columns + 1) + column. A space for a
   * negative row or column, a column past the width, or an index past the
   * end of the text.
   */
  function GetChar(input: string, row: int, column: int, columns: int): (c: char)
    ensures row < 0 || column < 0 || column >= columns ==> c == ' '
    ensures c != ' ' ==> 0 <= row * (columns + 1) + column < |input| && c == input[row * (columns + 1) + column]
    ensures 0 <= row && 0 <= column < columns && row * (columns + 1) + column < |input| ==>
      c == input[row * (columns + 1) + column]
  {
    var index := row * (columns + 1) + column;
    Utf8LenAtLeast(input);
    if column >= columns || column < 0 || row < 0 || index > Utf8Len(input) then ' '
    else if 0 <= index < |input| then input[index]
    else ' '
  }

  /** The corner of the junction at a row and column, from its four neighbour glyphs. */
  function GetWallType(input: string, row: int, column: int, columns: int): (r: Result<WallType, LayoutError>)
    ensures r.Ok? ==> r.value != Vertical && r.value != Horizontal
    ensures r.Err? ==> r.error.InvalidWallType?
    ensures
      var up, down := GetChar(input, row - 1, column, columns), GetChar(input, row + 1, column, columns);
      var left, right := GetChar(input, row, column - 1, columns), GetChar(input, row, column + 1, columns);
      && (r.Ok? <==> WallTypeOf(up, down, left, right).Some?)
      && (r.Ok? ==> Some(r.value) == WallTypeOf(up, down, left, right))
  {
    var up := GetChar(input, row - 1, column, columns);
    var down := GetChar(input, row + 1, column, columns);
    var left := GetChar(input, row, column - 1, columns);
    var right := GetChar(input, row, column + 1, columns);
    match WallTypeOf(up, down, left, right)
    case Some(w) => Ok(w)
    case None => Err(InvalidWallType(column, row, up, down, left, right))
  }

  /** The glyphs a layout may contain. */
  predicate IsGlyph(c: char)
  {
    c == '+' || c == '-' || c == '|' || c == 'O' || c == '.' || c == ' ' || c == '1'
  }

  /**
   * The cell a glyph at a row and column becomes: the match of the
   * source's inner loop, with a junction resolved by GetWallType.
   */
  function CellFor(input: string, row: int, column: int, columns: int, glyph: char): (r: Result<CellType, LayoutError>)
    ensures r.Ok? ==> IsGlyph(glyph) && r.value != Outside
  {
    match glyph
    case '+' =>
      (match GetWallType(input, row, column, columns)
       case Ok(w) => Ok(Wall(w))
       case Err(e) => Err(e))
    case '-' => Ok(Wall(Horizontal))
    case '|' => Ok(Wall(Vertical))
    case 'O' => Ok(PowerPill)
    case '.' => Ok(Dot)
    case ' ' => Ok(Empty)
    case '1' => Ok(Empty)
    case _ => Err(InvalidCell(glyph))
  }

  /**
   * The glyph table: walls come only from '+', '-' and '|', dots only from
   * '.', power pills only from 'O', and empty cells from a space or the
   * enemy-spawn digit '1'; any other glyph, or a junction with no corner,
   * is an error.
   */
  lemma GlyphTable(input: string, row: int, column: int, columns: int, glyph: char)
    ensures var r := CellFor(input, row, column, columns, glyph);
      && (r.Ok? <==> IsGlyph(glyph) && (glyph == '+' ==> GetWallType(input, row, column, columns).Ok?))
      && (!IsGlyph(glyph) ==> r == Err(InvalidCell(glyph)))
      && (r.Ok? ==> (r.value.Wall? <==> glyph == '+' || glyph == '-' || glyph == '|'))
      && (r.Ok? ==> (r.value == Wall(Horizontal) <==> glyph == '-'))
      && (r.Ok? ==> (r.value == Wall(Vertical) <==> glyph == '|'))
      && (r.Ok? ==> (r.value == Dot <==> glyph == '.'))
      && (r.Ok? ==> (r.value == PowerPill <==> glyph == 'O'))
      && (r.Ok? ==> (r.value == Empty <==> glyph == ' ' || glyph == '1'))
    ensures glyph == '+' ==>
      CellFor(input, row, column, columns, glyph) ==
        (match GetWallType(input, row, column, columns)
         case Ok(w) => Ok(Wall(w))
         case Err(e) => Err(e))
  {
  }

  /** The enemy spawned by a '1' at a row and column. */
  function SpawnAt(row: int, column: int): Enemies.Enemy
  {
    Enemies.NewEnemy(Enemies.Vec2(column as real, row as real), Enemies.Random)
  }

  /** The enemies one layout line spawns, left to right. */
  function LineSpawns(line: string, row: int): seq<Enemies.Enemy>
  {
    if line == [] then []
    else
      var column := |line| - 1;
      LineSpawns(line[..column], row) + (if line[column] == '1' then [SpawnAt(row, column)] else [])
  }

  /** The enemies a list of accepted lines spawns, row by row. */
  function GridSpawns(acc: seq<string>): seq<Enemies.Enemy>
  {
    if acc == [] then []
    else GridSpawns(acc[..|acc| - 1]) + LineSpawns(acc[|acc| - 1], |acc| - 1)
  }

  /** A line spawns an enemy at exactly its '1' glyphs. */
  lemma {:induction false} LineSpawnsExact(line: string, row: int)
    ensures forall column :: 0 <= column < |line| && line[column] == '1' ==> SpawnAt(row, column) in LineSpawns(line, row)
    ensures forall e :: e in LineSpawns(line, row) ==>
      exists column :: 0 <= column < |line| && line[column] == '1' && e == SpawnAt(row, column)
  {
    if line != [] {
      var n := |line| - 1;
      var init := line[..n];
      LineSpawnsExact(init, row);
      forall column | 0 <= column < |line| && line[column] == '1'
        ensures SpawnAt(row, column) in LineSpawns(line, row)
      {
        if column < n {
          assert init[column] == '1';
        }
      }
      forall e | e in LineSpawns(line, row)
        ensures exists column :: 0 <= column < |line| && line[column] == '1' && e == SpawnAt(row, column)
      {
        if e in LineSpawns(init, row) {
          var column :| 0 <= column < |init| && init[column] == '1' && e == SpawnAt(row, column);
          assert line[column] == '1';
        } else {
          assert line[n] == '1' && e == SpawnAt(row, n);
        }
      }
    }
  }

  /** The spawn list holds an enemy for every '1' of the accepted lines and nothing else. */
  lemma {:induction false} GridSpawnsExact(acc: seq<string>)
    ensures forall row, column :: 0 <= row < |acc| && 0 <= column < |acc[row]| && acc[row][column] == '1' ==>
      SpawnAt(row, column) in GridSpawns(acc)
    ensures forall e :: e in GridSpawns(acc) ==>
      exists row, column :: 0 <= row < |acc| && 0 <= column < |acc[row]| && acc[row][column] == '1' && e == SpawnAt(row, column)
  {
    if acc != [] {
      var n := |acc| - 1;
      var init := acc[..n];
      GridSpawnsExact(init);
      LineSpawnsExact(acc[n], n);
      forall row, column | 0 <= row < |acc| && 0 <= column < |acc[row]| && acc[row][column] == '1'
        ensures SpawnAt(row, column) in GridSpawns(acc)
      {
        if row < n {
          assert init[row] == acc[row];
        }
      }
      forall e | e in GridSpawns(acc)
        ensures exists row, column :: 0 <= row < |acc| && 0 <= column < |acc[row]| && acc[row][column] == '1' && e == SpawnAt(row, column)
      {
        if e in GridSpawns(init) {
          var row, column :| 0 <= row < |init| && 0 <= column < |init[row]| && init[row][column] == '1' && e == SpawnAt(row, column);
          assert acc[row] == init[row];
        } else {
          var column :| 0 <= column < |acc[n]| && acc[n][column] == '1' && e == SpawnAt(n, column);
        }
      }
    }
  }

  // ---------------------------------------------------------------------------
  // Row-major flattening
  // ---------------------------------------------------------------------------

  /** The rows of a grid laid end to end. */
  function Flatten<T>(g: seq<seq<T>>): seq<T>
  {
    if g == [] then [] else Flatten(g[..|g| - 1]) + g[|g| - 1]
  }

  /** With rows of one width, the flattened grid is rows * width long. */
  lemma {:induction false} FlattenLength<T>(g: seq<seq<T>>, width: nat)
    requires forall k :: 0 <= k < |g| ==> |g[k]| == width
    ensures |Flatten(g)| == |g| * width
  {
    if g != [] {
      var n := |g| - 1;
      FlattenLength(g[..n], width);
      assert |Flatten(g)| == n * width + width;
    }
  }

  /** With rows of one width, flattening puts row r, column c at r * width + c. */
  lemma {:induction false} FlattenIndex<T>(g: seq<seq<T>>, width: nat, r: int, c: int)
    requires forall k :: 0 <= k < |g| ==> |g[k]| == width
    requires 0 <= r < |g| && 0 <= c < width
    ensures r * width + c < |Flatten(g)| && Flatten(g)[r * width + c] == g[r][c]
  {
    var n := |g| - 1;
    var init := g[..n];
    FlattenLength(init, width);
    if r < n {
      RowMajorBound(r, c, n, width);
      FlattenIndex(init, width, r, c);
    }
  }

  // ---------------------------------------------------------------------------
  // Building a board
  // ---------------------------------------------------------------------------

  /** Every glyph of a line, read as the given row of a board the given width, builds a cell. */
  ghost predicate LineBuilds(input: string, line: string, row: int, columns: int)
  {
    forall column {:trigger CellFor(input, row, column, columns, line[column])} ::
      0 <= column < |line| ==> CellFor(input, row, column, columns, line[column]).Ok?
  }

  /** The glyphs of a line before some column build cells and the one there fails with err. */
  ghost predicate LineFailsWith(input: string, line: string, row: int, columns: int, err: LayoutError)
  {
    exists column ::
      && 0 <= column < |line|
      && (forall d {:trigger CellFor(input, row, d, columns, line[d])} ::
            0 <= d < column ==> CellFor(input, row, d, columns, line[d]).Ok?)
      && CellFor(input, row, column, columns, line[column]) == Err(err)
  }

  /** The cell a glyph builds; Outside stands in for a glyph that builds none. */
  function CellOrOutside(input: string, row: int, column: int, columns: int, glyph: char): CellType
  {
    match CellFor(input, row, column, columns, glyph)
    case Ok(cell) => cell
    case Err(_) => Outside
  }

  /** The cells a line builds as the given row, one per glyph in order. */
  ghost function RowCells(input: string, line: string, row: int, columns: int): (cs: seq<CellType>)
    ensures |cs| == |line|
  {
    if line == [] then []
    else
      var c := |line| - 1;
      RowCells(input, line[..c], row, columns) + [CellOrOutside(input, row, c, columns, line[c])]
  }

  /** Column c of a row's cells is the cell glyph c builds. */
  lemma {:induction false} RowCellsAt(input: string, line: string, row: int, columns: int, c: int)
    requires 0 <= c < |line|
    ensures RowCells(input, line, row, columns)[c] == CellOrOutside(input, row, c, columns, line[c])
  {
    var n := |line| - 1;
    if c < n {
      RowCellsAt(input, line[..n], row, columns, c);
    }
  }

  /** In a line that builds, column c of its cells is exactly what glyph c builds. */
  lemma RowCellsBuilt(input: string, line: string, row: int, columns: int, c: int)
    requires LineBuilds(input, line, row, columns) && 0 <= c < |line|
    ensures CellFor(input, row, c, columns, line[c]) == Ok(RowCells(input, line, row, columns)[c])
  {
    RowCellsAt(input, line, row, columns, c);
  }

  /** An accepted row has the width of the first and every glyph of it builds a cell. */
  ghost predicate RowValid(input: string, acc: seq<string>, row: int)
    requires 0 <= row < |acc|
  {
    Utf8Len(acc[row]) == Width(acc) && LineBuilds(input, acc[row], row, Width(acc))
  }

  /** A layout from which a board can be built. */
  ghost predicate LayoutValid(input: string)
  {
    var acc := Accepted(Lines(input));
    forall row :: 0 <= row < |acc| ==> RowValid(input, acc, row)
  }

  /**
   * The error the parser reports is the first failure in reading order: every
   * row before the failing one is valid, and the failing row either differs
   * in width from the first or holds the first glyph that builds no cell.
   */
  ghost predicate FailsWith(input: string, err: LayoutError)
  {
    var acc := Accepted(Lines(input));
    exists row :: 0 <= row < |acc| && (forall k :: 0 <= k < row ==> RowValid(input, acc, k)) &&
      if Utf8Len(acc[row]) != Width(acc) then err == InvalidBoardLine(row)
      else LineFailsWith(input, acc[row], row, Width(acc), err)
  }

  /**
   * A board built from a layout: one row per accepted line, as wide as the
   * first, each cell the one its glyph builds, and an enemy for every '1'.
   */
  ghost predicate ParsedFrom(input: string, b: Board)
  {
    var acc := Accepted(Lines(input));
    && b.Valid()
    && b.rows == |acc|
    && b.columns == Width(acc)
    && (forall row :: 0 <= row < |acc| ==> |acc[row]| == b.columns)
    && (forall row, column {:trigger CellFor(input, row, column, b.columns, acc[row][column])} ::
          0 <= row < b.rows && 0 <= column < b.columns ==>
          CellFor(input, row, column, b.columns, acc[row][column]) == Ok(CellAt(b, row, column)))
    && b.enemies == GridSpawns(acc)
  }

  /** One step of the walk over the lines: the accepted lines so far gain the next one unless it is skipped. */
  lemma AcceptedStep(lines: seq<string>, i: nat)
    requires i < |lines|
    ensures IsSkipped(lines[i]) ==> Accepted(lines[..i + 1]) == Accepted(lines[..i])
    ensures !IsSkipped(lines[i]) ==> Accepted(lines[..i + 1]) == Accepted(lines[..i]) + [lines[i]]
  {
    assert lines[..i + 1][..i] == lines[..i];
  }

  /** A line the walk accepts sits in the whole accepted list right after the lines accepted before it. */
  lemma AcceptedAt(lines: seq<string>, i: nat)
    requires i < |lines| && !IsSkipped(lines[i])
    ensures |Accepted(lines[..i])| < |Accepted(lines)|
    ensures Accepted(lines)[|Accepted(lines[..i])|] == lines[i]
  {
    AcceptedStep(lines, i);
    assert lines[..i + 1] + lines[i + 1..] == lines;
    AcceptedAppend(lines[..i + 1], lines[i + 1..]);
  }

  /**
   * The inner loop of Board::from over one accepted line: each glyph pushes
   * the cell it builds, a '1' also pushes an enemy at its column and the
   * row, and the first glyph that builds no cell aborts.
   */
  method PushRow(input: string, line: string, row: int, columns: int, cells: seq<CellType>, enemies: seq<Enemies.Enemy>)
    returns (err: Option<LayoutError>, cells': seq<CellType>, enemies': seq<Enemies.Enemy>)
    ensures err.None? <==> LineBuilds(input, line, row, columns)
    ensures err.Some? ==> LineFailsWith(input, line, row, columns, err.value)
    ensures err.None? ==> cells' == cells + RowCells(input, line, row, columns)
    ensures err.None? ==> forall j :: |cells| <= j < |cells'| ==> !cells'[j].Outside?
    ensures err.None? ==> enemies' == enemies + LineSpawns(line, row)
    ensures err.None? ==> IsAscii(line)
  {
    cells', enemies' := cells, enemies;
    var column := 0;
    assert line[..column] == [];
    while column < |line|
      invariant 0 <= column <= |line|
      invariant cells' == cells + RowCells(input, line[..column], row, columns)
      invariant forall c :: 0 <= c < column ==> CellFor(input, row, c, columns, line[c]).Ok?
      invariant forall j :: |cells| <= j < |cells'| ==> !cells'[j].Outside?
      invariant forall c :: 0 <= c < column ==> line[c] as int < 0x80
      invariant enemies' == enemies + LineSpawns(line[..column], row)
    {
      var cell := CellFor(input, row, column, columns, line[column]);
      if cell.Err? {
        err := Some(cell.error);
        return;
      }
      assert line[..column + 1][..column] == line[..column];
      if line[column] == '1' {
        enemies' := enemies' + [SpawnAt(row, column)];
      }
      cells' := cells' + [cell.value];
      column := column + 1;
    }
    assert line[..column] == line;
    err := None;
  }

  /**
   * The first |acc| accepted rows have built: each is a valid row of the
   * whole layout `all`, as wide as the first, and its grid row holds the
   * cells its glyphs build.
   */
  ghost predicate RowsBuilt(input: string, all: seq<string>, acc: seq<string>, grid: seq<seq<CellType>>)
    decreases |acc|
  {
    && |acc| == |grid| <= |all|
    && (acc != [] ==>
         var n := |acc| - 1;
         && RowsBuilt(input, all, acc[..n], grid[..n])
         && RowValid(input, all, n)
         && |acc[n]| == Width(all)
         && grid[n] == RowCells(input, acc[n], n, Width(all)))
  }

  /** Every row counted by RowsBuilt has built. */
  lemma {:induction false} RowsBuiltAt(input: string, all: seq<string>, acc: seq<string>, grid: seq<seq<CellType>>, k: int)
    requires RowsBuilt(input, all, acc, grid) && 0 <= k < |acc|
    ensures RowValid(input, all, k) && |acc[k]| == Width(all) && grid[k] == RowCells(input, acc[k], k, Width(all))
  {
    var n := |acc| - 1;
    if k < n {
      RowsBuiltAt(input, all, acc[..n], grid[..n], k);
    }
  }

  /**
   * What the parser has built after its first |acc| accepted rows: the
   * rows, their cells flattened in row-major order and the enemies of every '1'.
   */
  ghost predicate Built(input: string, all: seq<string>, acc: seq<string>, grid: seq<seq<CellType>>,
                        cells: seq<CellType>, enemies: seq<Enemies.Enemy>)
  {
    && RowsBuilt(input, all, acc, grid)
    && cells == Flatten(grid)
    && enemies == GridSpawns(acc)
  }

  /** Enemies of one more line are appended after those of the lines before it. */
  lemma GridSpawnsAppend(acc: seq<string>, line: string)
    ensures GridSpawns(acc + [line]) == GridSpawns(acc) + LineSpawns(line, |acc|)
  {
    assert (acc + [line])[..|acc|] == acc;
  }

  /** Cells of one more row are appended after those of the rows before it. */
  lemma FlattenAppend<T>(g: seq<seq<T>>, row: seq<T>)
    ensures Flatten(g + [row]) == Flatten(g) + row
  {
    assert (g + [row])[..|g|] == g;
  }

  /** Pushing the next line of the layout, once it builds, keeps Built. */
  lemma BuiltExtend(input: string, all: seq<string>, acc: seq<string>, grid: seq<seq<CellType>>,
                    cells: seq<CellType>, enemies: seq<Enemies.Enemy>, line: string)
    requires Built(input, all, acc, grid, cells, enemies)
    requires |acc| < |all| && all[|acc|] == line
    requires Utf8Len(line) == Width(all) && IsAscii(line)
    requires LineBuilds(input, line, |acc|, Width(all))
    ensures Built(input, all, acc + [line], grid + [RowCells(input, line, |acc|, Width(all))],
                  cells + RowCells(input, line, |acc|, Width(all)), enemies + LineSpawns(line, |acc|))
  {
    var row := |acc|;
    var acc', grid' := acc + [line], grid + [RowCells(input, line, row, Width(all))];
    Utf8LenAscii(line);
    assert RowValid(input, all, row);
    assert acc'[..row] == acc && grid'[..row] == grid;
    GridSpawnsAppend(acc, line);
    FlattenAppend(grid, RowCells(input, line, row, Width(all)));
  }

  /**
   * How the given row of the accepted lines fails: a width other than the
   * first row's, or else the first glyph that builds no cell.
   */
  ghost predicate RowFails(input: string, all: seq<string>, row: int, err: LayoutError)
    requires 0 <= row < |all|
  {
    if Utf8Len(all[row]) != Width(all) then err == InvalidBoardLine(row)
    else LineFailsWith(input, all[row], row, Width(all), err)
  }

  /**
   * A row that fails after rows that all built: the layout is invalid and
   * the error is its first failure.
   */
  lemma BuildFails(input: string, acc: seq<string>, grid: seq<seq<CellType>>,
                   cells: seq<CellType>, enemies: seq<Enemies.Enemy>, err: LayoutError)
    requires Built(input, Accepted(Lines(input)), acc, grid, cells, enemies)
    requires |acc| < |Accepted(Lines(input))|
    requires RowFails(input, Accepted(Lines(input)), |acc|, err)
    ensures !LayoutValid(input) && FailsWith(input, err)
  {
    var all := Accepted(Lines(input));
    var row := |acc|;
    forall k | 0 <= k < row
      ensures RowValid(input, all, k)
    {
      RowsBuiltAt(input, all, acc, grid, k);
    }
    if Utf8Len(all[row]) == Width(all) {
      var column :| 0 <= column < |all[row]| && CellFor(input, row, column, Width(all), all[row][column]) == Err(err);
      assert !LineBuilds(input, all[row], row, Width(all));
    }
    assert !RowValid(input, all, row);
  }

  /** The cell at a row and column of a board whose cells are a flattened grid is the grid's. */
  lemma CellAtFlatten(b: Board, grid: seq<seq<CellType>>, row: int, column: int)
    requires b.Valid() && b.cells == Flatten(grid) && |grid| == b.rows
    requires forall k :: 0 <= k < |grid| ==> |grid[k]| == b.columns
    requires 0 <= row < b.rows && 0 <= column < b.columns
    ensures CellAt(b, row, column) == grid[row][column]
  {
    FlattenIndex(grid, b.columns, row, column);
  }

  /** A grid none of whose cells is Outside flattens to cells none of which is. */
  lemma {:induction false} FlattenNoOutside(grid: seq<seq<CellType>>)
    requires forall k, c :: 0 <= k < |grid| && 0 <= c < |grid[k]| ==> !grid[k][c].Outside?
    ensures forall j :: 0 <= j < |Flatten(grid)| ==> !Flatten(grid)[j].Outside?
  {
    if grid != [] {
      var n := |grid| - 1;
      FlattenNoOutside(grid[..n]);
      assert Flatten(grid) == Flatten(grid[..n]) + grid[n];
    }
  }

  /** Once every accepted row has built, the layout is valid and the board is the one parsed from it. */
  lemma BuiltBoard(input: string, grid: seq<seq<CellType>>, cells: seq<CellType>, enemies: seq<Enemies.Enemy>)
    requires Built(input, Accepted(Lines(input)), Accepted(Lines(input)), grid, cells, enemies)
    ensures LayoutValid(input)
    ensures
      var all := Accepted(Lines(input));
      ParsedFrom(input, Board(Width(all), |all|, cells, enemies))
  {
    var all := Accepted(Lines(input));
    var width := Width(all);
    forall k | 0 <= k < |all|
      ensures RowValid(input, all, k) && |all[k]| == width && grid[k] == RowCells(input, all[k], k, width)
    {
      RowsBuiltAt(input, all, all, grid, k);
    }
    forall k, c | 0 <= k < |grid| && 0 <= c < |grid[k]|
      ensures !grid[k][c].Outside?
    {
      RowCellsBuilt(input, all[k], k, width, c);
    }
    FlattenNoOutside(grid);
    FlattenLength(grid, width);
    var b := Board(width, |all|, cells, enemies);
    forall row, column | 0 <= row < b.rows && 0 <= column < b.columns
      ensures CellFor(input, row, column, width, all[row][column]) == Ok(CellAt(b, row, column))
    {
      CellAtFlatten(b, grid, row, column);
      RowCellsBuilt(input, all[row], row, width, column);
    }
  }

  /**
   * One accepted line of Board::from: the first fixes the width, a line of
   * another byte length aborts, and otherwise the line's cells and enemies
   * are pushed as the next row.
   */
  method ReadRow(input: string, ghost all: seq<string>, ghost acc: seq<string>, ghost grid: seq<seq<CellType>>,
                 line: string, row: int, columns: int, cells: seq<CellType>, enemies: seq<Enemies.Enemy>)
    returns (err: Option<LayoutError>, columns': int, cells': seq<CellType>, enemies': seq<Enemies.Enemy>)
    requires Built(input, all, acc, grid, cells, enemies)
    requires row == |acc| < |all| && all[row] == line
    requires columns == if row == 0 then 0 else Width(all)
    ensures err.Some? ==> RowFails(input, all, row, err.value)
    ensures err.None? ==> columns' == Width(all)
    ensures err.None? ==> Built(input, all, acc + [line], grid + [RowCells(input, line, row, columns')], cells', enemies')
  {
    columns', cells', enemies' := columns, cells, enemies;
    if row == 0 {
      columns' := Utf8Len(line);
    }
    if columns' != Utf8Len(line) {
      err := Some(InvalidBoardLine(row));
      return;
    }
    err, cells', enemies' := PushRow(input, line, row, columns', cells, enemies);
    if err.Some? {
      return;
    }
    BuiltExtend(input, all, acc, grid, cells, enemies, line);
  }

  /**
   * The line loop of Board::from: skips the lines without maze glyphs and the
   * comments, and reads every other line as the next row, stopping at the
   * first row that fails. Either every accepted row built, or the rows
   * before the failing one did.
   */
  method ReadRows(input: string)
    returns (err: Option<LayoutError>, columns: int, rows: int, cells: seq<CellType>, enemies: seq<Enemies.Enemy>,
             ghost acc: seq<string>, ghost grid: seq<seq<CellType>>)
    ensures Built(input, Accepted(Lines(input)), acc, grid, cells, enemies)
    ensures err.Some? ==> |acc| < |Accepted(Lines(input))| && RowFails(input, Accepted(Lines(input)), |acc|, err.value)
    ensures err.None? ==> acc == Accepted(Lines(input))
    ensures err.None? ==> columns == Width(acc) && rows == |acc|
  {
    var lines := Lines(input);
    acc, grid := [], [];
    columns, rows, cells, enemies := 0, 0, [], [];
    var i := 0;
    assert lines[..i] == [];
    while i < |lines|
      invariant 0 <= i <= |lines|
      invariant acc == Accepted(lines[..i])
      invariant rows == |acc|
      invariant columns == if rows == 0 then 0 else Width(Accepted(lines))
      invariant Built(input, Accepted(lines), acc, grid, cells, enemies)
    {
      var line := lines[i];
      AcceptedStep(lines, i);
      if !IsSkipped(line) {
        AcceptedAt(lines, i);
        var columns', cells', enemies';
        err, columns', cells', enemies' := ReadRow(input, Accepted(lines), acc, grid, line, rows, columns, cells, enemies);
        if err.Some? {
          return;
        }
        acc, grid := acc + [line], grid + [RowCells(input, line, rows, columns')];
        columns, cells, enemies := columns', cells', enemies';
        rows := rows + 1;
      }
      i := i + 1;
    }
    assert lines[..i] == lines;
    err := None;
  }

  /**
   * Board::from: the rows the line loop reads, as a board of that many rows
   * and the first row's width, with the enemies of every '1'.
   */
  method FromLayout(input: string) returns (r: Result<Board, LayoutError>)
    ensures r.Ok? <==> LayoutValid(input)
    ensures r.Ok? ==> ParsedFrom(input, r.value)
    ensures r.Err? ==> FailsWith(input, r.error)
  {
    var err, columns, rows, cells, enemies, acc, grid := ReadRows(input);
    if err.Some? {
      BuildFails(input, acc, grid, cells, enemies, err.value);
      return Err(err.value);
    }
    BuiltBoard(input, grid, cells, enemies);
    return Ok(Board(columns, rows, cells, enemies));
  }
}
