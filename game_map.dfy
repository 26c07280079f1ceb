/** A Sokoban game board (`GameMap`): its dimensions, box destinations and
    undo limit, a `height x width` grid of entities written in place, and the
    player-position index that `GameState` updates through
    `getPlayerPosition()`. The value side (`Grid`, `Board`) is what the game's
    specification functions talk about. */
module GameMaps {
  import opened Wrappers
  import opened Int32
  import opened Entities
  import opened MapText

  /** Rows of cells, indexed `[y][x]`. */
  type Grid = seq<seq<Entity>>

  predicate InBounds(g: Grid, p: Position) {
    0 <= p.y < |g| && 0 <= p.x < |g[p.y]|
  }

  function At(g: Grid, p: Position): Entity
    requires InBounds(g, p)
  {
    g[p.y][p.x]
  }

  /** `g` with cell `p` overwritten by `e`. */
  function Put(g: Grid, p: Position, e: Entity): (r: Grid)
    requires InBounds(g, p)
    ensures |r| == |g| && forall y :: 0 <= y < |g| ==> |r[y]| == |g[y]|
    ensures At(r, p) == e
    ensures forall q :: InBounds(g, q) && q != p ==> At(r, q) == At(g, q)
  {
    g[p.y := g[p.y][p.x := e]]
  }

  predicate IsBoxAt(g: Grid, p: Position) {
    InBounds(g, p) && At(g, p).Box?
  }

  /** `getBoxPositions()`: the cells that hold a box. */
  function BoxPositions(g: Grid): (r: set<Position>)
    ensures forall p :: p in r <==> IsBoxAt(g, p)
  {
    set y, x | 0 <= y < |g| && 0 <= x < |g[y]| && g[y][x].Box? :: Position(x, y)
  }

  /** What a board holds at one moment: its cells and its player index. */
  datatype Board = Board(cells: Grid, players: map<Char16, Position>)

  predicate Rectangular(g: Grid) {
    forall y :: 0 <= y < |g| ==> |g[y]| == |g[0]|
  }

  predicate OnBorder(g: Grid, p: Position)
    requires InBounds(g, p)
  {
    p.y == 0 || p.y == |g| - 1 || p.x == 0 || p.x == |g[p.y]| - 1
  }

  predicate Interior(g: Grid, p: Position) {
    0 < p.y < |g| - 1 && 0 < p.x < |g[p.y]| - 1
  }

  /** A fully set grid closed by walls, as maps are assumed to be. */
  ghost predicate Enclosed(g: Grid) {
    && Rectangular(g)
    && forall p :: InBounds(g, p) ==> At(g, p) != Unset && (OnBorder(g, p) ==> At(g, p) == Wall)
  }

  /** A board play can run on: enclosed, with every indexed player inside. */
  ghost predicate Playable(b: Board) {
    Enclosed(b.cells) && forall k :: k in b.players ==> Interior(b.cells, b.players[k])
  }

  /** Only walls stand on the border, so any other cell is an interior one. */
  lemma NotWallIsInterior(g: Grid, p: Position)
    requires Enclosed(g) && InBounds(g, p) && At(g, p) != Wall
    ensures Interior(g, p)
  {
  }

  /** The board description that `parse` reads from the map text. */
  datatype Layout = Layout(undoLimit: int, width: nat, height: nat, destinations: set<Position>)

  /** What `parse` reports instead of a map: Java's `NumberFormatException`
      from `Integer.parseInt`, or an `IndexOutOfBoundsException` from a
      missing line or a row shorter than the first one. */
  datatype ParseError = NotAnInteger | IndexOutOfBounds

  /** Every `(column j, row i)` with `j < width` whose character is `'@'`. */
  function DestinationCells(rows: seq<string>, width: nat): (r: set<Position>)
    requires forall i :: 0 <= i < |rows| ==> |rows[i]| >= width
    ensures forall p :: p in r <==> 0 <= p.y < |rows| && 0 <= p.x < width && rows[p.y][p.x] == '@'
  {
    set i, j | 0 <= i < |rows| && 0 <= j < width && rows[i][j] == '@' :: Position(j, i)
  }

  /** The scan of `parse`: it fails on the first row shorter than `width`. */
  function ScanDestinations(rows: seq<string>, width: nat): Result<set<Position>, ParseError> {
    if forall i :: 0 <= i < |rows| ==> |rows[i]| >= width
    then Ok(DestinationCells(rows, width))
    else Err(IndexOutOfBounds)
  }

  /** `GameMap.parse` on values: the first line is the undo limit, the rest
      are the rows, the first row fixes the width. Nothing else is validated. */
  function ParseLayout(mapText: string): (r: Result<Layout, ParseError>)
    ensures r.Ok? ==> && InRange(r.value.undoLimit)
                      && r.value.height == |SplitLines(mapText)| - 1 >= 1
                      && forall d :: d in r.value.destinations ==>
                           0 <= d.x < r.value.width && 0 <= d.y < r.value.height
    ensures var lines := SplitLines(mapText);
      && (r == Err(NotAnInteger) <==> |lines| >= 1 && ParseInt(lines[0]).None?)
      && (r.Ok? <==> && |lines| >= 2 && ParseInt(lines[0]).Some?
                     && forall i :: 1 <= i < |lines| ==> |lines[i]| >= |lines[1]|)
    ensures var lines := SplitLines(mapText);
      r.Ok? ==>
        && r.value.undoLimit == ParseInt(lines[0]).value
        && r.value.width == |lines[1]|
        && r.value.height == |lines| - 1
        && forall p :: p in r.value.destinations <==>
             0 <= p.y < |lines| - 1 && 0 <= p.x < |lines[1]| && lines[p.y + 1][p.x] == '@'
  {
    var lines := SplitLines(mapText);
    if |lines| == 0 then Err(IndexOutOfBounds)
    else
      match ParseInt(lines[0])
      case None => Err(NotAnInteger)
      case Some(limit) =>
        var rows := lines[1..];
        if |rows| == 0 then Err(IndexOutOfBounds)
        else
          match ScanDestinations(rows, |rows[0]|)
          case Err(e) => Err(e)
          case Ok(dests) => Ok(Layout(limit, |rows[0]|, |rows|, dests))
  }

  /** The nested loops of `parse` over rows and columns. */
  method CollectDestinations(rows: seq<string>, width: nat) returns (r: Result<set<Position>, ParseError>)
    ensures r == ScanDestinations(rows, width)
  {
    var found: set<Position> := {};
    var i := 0;
    while i < |rows|
      invariant 0 <= i <= |rows|
      invariant forall k :: 0 <= k < i ==> |rows[k]| >= width
      invariant forall p :: p in found <==> 0 <= p.y < i && 0 <= p.x < width && rows[p.y][p.x] == '@'
    {
      var j := 0;
      while j < width
        invariant 0 <= j <= width
        invariant j <= |rows[i]|
        invariant forall p :: p in found <==>
          (0 <= p.y < i && 0 <= p.x < width && rows[p.y][p.x] == '@') ||
          (p.y == i && 0 <= p.x < j && rows[i][p.x] == '@')
      {
        if j >= |rows[i]| {
          return Err(IndexOutOfBounds);
        }
        if rows[i][j] == '@' {
          found := found + {Position(j, i)};
        }
        j := j + 1;
      }
      i := i + 1;
    }
    assert found == DestinationCells(rows, width);
    r := Ok(found);
  }

  lemma DecimalIsPlain(n: int)
    ensures |Decimal(n)| >= 1 && '\n' !in Decimal(n) && Decimal(n)[|Decimal(n)| - 1] != '\r'
  {
    var s := Decimal(n);
    var d := if n < 0 then Digits(-n) else Digits(n);
    assert s == d || s == "-" + d;
    assert forall k :: 0 <= k < |s| ==> s[k] == '-' || IsDigit(s[k]);
  }

  /** A text whose lines are `ls`, an integer line and then rows no shorter
      than the first row, parses to that integer, the first row's width, the
      row count and the `@` cells within the width. */
  lemma ParseOfLines(mapText: string, ls: seq<string>)
    requires SplitLines(mapText) == ls && |ls| >= 2 && ParseInt(ls[0]).Some?
    requires forall i :: 1 <= i < |ls| ==> |ls[i]| >= |ls[1]|
    ensures ParseLayout(mapText) ==
            Ok(Layout(ParseInt(ls[0]).value, |ls[1]|, |ls| - 1, DestinationCells(ls[1..], |ls[1]|)))
  {
    var r := ParseLayout(mapText);
    var rows := ls[1..];
    var d := DestinationCells(rows, |ls[1]|);
    assert r.value.destinations == d by {
      forall p ensures p in r.value.destinations <==> p in d {
        if 0 <= p.y < |rows| { assert rows[p.y] == ls[p.y + 1]; }
      }
    }
  }

  /** The same for a map file written out one plain line per line. */
  lemma ParseJoinedLines(ls: seq<string>)
    requires PlainLines(ls) && |ls| >= 2 && ParseInt(ls[0]).Some?
    requires forall i :: 1 <= i < |ls| ==> |ls[i]| >= |ls[1]|
    ensures ParseLayout(JoinLines(ls)) ==
            Ok(Layout(ParseInt(ls[0]).value, |ls[1]|, |ls| - 1, DestinationCells(ls[1..], |ls[1]|)))
  {
    SplitJoinedLines(ls);
    ParseOfLines(JoinLines(ls), ls);
  }

  /** A line without a line feed or a trailing carriage return, put before
      plain lines, keeps them plain. */
  lemma PlainLinesPrepend(line: string, rows: seq<string>)
    requires '\n' !in line && (line == [] || line[|line| - 1] != '\r')
    requires PlainLines(rows)
    ensures PlainLines([line] + rows)
  {
    var lines := [line] + rows;
    forall i | 0 <= i < |lines|
      ensures '\n' !in lines[i] && (lines[i] == [] || lines[i][|lines[i]| - 1] != '\r')
    {
      if i > 0 { assert lines[i] == rows[i - 1]; }
    }
  }

  /** A map file whose first line is the decimal undo limit and whose rows all
      have the first row's length parses to exactly that layout. */
  lemma ParseRenderedMap(undoLimit: int, rows: seq<string>)
    requires InRange(undoLimit) && |rows| >= 1
    requires PlainLines(rows)
    requires forall i :: 0 <= i < |rows| ==> |rows[i]| == |rows[0]|
    ensures ParseLayout(JoinLines([Decimal(undoLimit)] + rows)) ==
            Ok(Layout(undoLimit, |rows[0]|, |rows|, DestinationCells(rows, |rows[0]|)))
  {
    var lines := [Decimal(undoLimit)] + rows;
    RenderedLines(undoLimit, rows);
    ParseJoinedLinesAs(lines, undoLimit, |rows[0]|, |rows|, DestinationCells(rows, |rows[0]|));
  }

  /** `ParseJoinedLines` with the expected layout given field by field. */
  lemma ParseJoinedLinesAs(ls: seq<string>, undoLimit: int, width: int, height: int, destinations: set<Position>)
    requires PlainLines(ls) && |ls| >= 2 && ParseInt(ls[0]) == Some(undoLimit)
    requires forall i :: 1 <= i < |ls| ==> |ls[i]| >= |ls[1]|
    requires width == |ls[1]| && height == |ls| - 1 && destinations == DestinationCells(ls[1..], width)
    ensures ParseLayout(JoinLines(ls)) == Ok(Layout(undoLimit, width, height, destinations))
  {
    var expected := Layout(ParseInt(ls[0]).value, |ls[1]|, |ls| - 1, DestinationCells(ls[1..], |ls[1]|));
    assert expected == Layout(undoLimit, width, height, destinations);
    ParseJoinedLines(ls);
  }

  /** The lines of a rendered map meet what `ParseJoinedLines` asks. */
  lemma RenderedLines(undoLimit: int, rows: seq<string>)
    requires InRange(undoLimit) && |rows| >= 1
    requires PlainLines(rows)
    requires forall i :: 0 <= i < |rows| ==> |rows[i]| == |rows[0]|
    ensures var lines := [Decimal(undoLimit)] + rows;
      && PlainLines(lines) && |lines| >= 2 && ParseInt(lines[0]) == Some(undoLimit)
      && lines[1..] == rows && lines[1] == rows[0]
      && forall i :: 1 <= i < |lines| ==> |lines[i]| >= |lines[1]|
  {
    var lines := [Decimal(undoLimit)] + rows;
    ParseIntOfDecimal(undoLimit);
    DecimalIsPlain(undoLimit);
    PlainLinesPrepend(Decimal(undoLimit), rows);
    assert lines[1..] == rows && lines[1] == rows[0];
    assert forall i :: 1 <= i < |lines| ==> lines[i] == rows[i - 1];
  }

  /** An undo-limit line that is not an integer makes `parse` fail. */
  lemma ParseRejectsBadUndoLimit(mapText: string)
    requires |SplitLines(mapText)| > 0 && ParseInt(SplitLines(mapText)[0]).None?
    ensures ParseLayout(mapText) == Err(NotAnInteger)
  {
  }

  /** The one-row map `"3\n.A.@\n"`: undo limit 3, width 4, height 1 and a
      single destination in column 3. */
  lemma ParseExample()
    ensures ParseLayout("3\n.A.@\n") == Ok(Layout(3, 4, 1, {Position(3, 0)}))
  {
    var ls := ["3", ".A.@"];
    OneRowExampleLines(ls);
    ParseJoinedLines(ls);
    assert ls[1..] == [".A.@"];
    ExampleDestinations([".A.@"], 4, {Position(3, 0)});
  }

  /** A later row longer than the first is read only up to the first row's
      width: the `@` beyond it is not a destination. */
  lemma ParseIgnoresBeyondWidth()
    ensures ParseLayout("1\n.@\n.@@\n") == Ok(Layout(1, 2, 2, {Position(1, 0), Position(1, 1)}))
  {
    var ls := ["1", ".@", ".@@"];
    LongerRowExampleLines(ls);
    ParseJoinedLines(ls);
    assert ls[1..] == [".@", ".@@"];
    ExampleDestinations([".@", ".@@"], 2, {Position(1, 0), Position(1, 1)});
  }

  /** The text and first line of the one-row example. */
  lemma OneRowExampleLines(ls: seq<string>)
    requires ls == ["3", ".A.@"]
    ensures PlainLines(ls) && ParseInt(ls[0]) == Some(3)
    ensures JoinLines(ls) == "3\n.A.@\n"
  {
    assert JoinLines(ls[1..]) == ".A.@\n" by {
      assert ls[1..][1..] == [];
    }
    assert ParseInt("3") == Some(3);
  }

  /** The text and first line of the longer-row example. */
  lemma LongerRowExampleLines(ls: seq<string>)
    requires ls == ["1", ".@", ".@@"]
    ensures PlainLines(ls) && ParseInt(ls[0]) == Some(1)
    ensures JoinLines(ls) == "1\n.@\n.@@\n"
  {
    assert JoinLines(ls[2..]) == ".@@\n" by {
      assert ls[2..][1..] == [];
    }
    assert JoinLines(ls[1..]) == ".@\n.@@\n" by {
      assert ls[1..][1..] == ls[2..];
    }
    assert ParseInt("1") == Some(1);
  }

  /** The destination cells of the two examples above. */
  lemma ExampleDestinations(rows: seq<string>, width: nat, expected: set<Position>)
    requires || (rows == [".A.@"] && width == 4 && expected == {Position(3, 0)})
             || (rows == [".@", ".@@"] && width == 2 && expected == {Position(1, 0), Position(1, 1)})
    ensures DestinationCells(rows, width) == expected
  {
    var d := DestinationCells(rows, width);
    forall p ensures p in d <==> p in expected {
      assert p in d <==> 0 <= p.y < |rows| && 0 <= p.x < width && rows[p.y][p.x] == '@';
    }
  }

  class GameMap {
    const width: int
    const height: int
    const destinations: set<Position>
    const undoLimit: int
    const grid: array2<Entity>
    /** The player-position index, keyed by `(char)('A' + id)`. */
    var players: map<Char16, Position>
    /** The grid's contents as a value. */
    ghost var cells: Grid

    ghost predicate Valid()
      reads this, grid
    {
      && 0 <= width && 0 <= height && InRange(undoLimit)
      && grid.Length0 == height && grid.Length1 == width
      && |cells| == height
      && (forall y :: 0 <= y < height ==> |cells[y]| == width)
      && forall y, x :: 0 <= y < height && 0 <= x < width ==> cells[y][x] == grid[y, x]
    }

    ghost function Snap(): Board
      reads this
    {
      Board(cells, players)
    }

    /** A map with the given metadata whose cells are all still unset. */
    constructor (maxWidth: int, maxHeight: int, destinations: set<Position>, undoLimit: int)
      requires 0 <= maxWidth && 0 <= maxHeight && InRange(undoLimit)
      ensures Valid() && fresh(grid)
      ensures width == maxWidth && height == maxHeight
      ensures this.destinations == destinations && this.undoLimit == undoLimit
      ensures forall p :: InBounds(cells, p) ==> At(cells, p) == Unset
      ensures players == map[]
    {
      width, height := maxWidth, maxHeight;
      this.destinations, this.undoLimit := destinations, undoLimit;
      grid := new Entity[maxHeight, maxWidth]((y, x) => Unset);
      cells := seq(maxHeight, y => seq(maxWidth, x => Unset));
      players := map[];
    }

    /** `new GameMap(other)`: a deep copy of grid, index and metadata. */
    constructor Copy(other: GameMap)
      requires other.Valid()
      ensures Valid() && fresh(grid)
      ensures width == other.width && height == other.height
      ensures destinations == other.destinations && undoLimit == other.undoLimit
      ensures Snap() == other.Snap()
    {
      var g := new Entity[other.height, other.width]((y, x) => Unset);
      var y := 0;
      while y < other.height
        invariant 0 <= y <= other.height
        invariant forall i, j :: 0 <= i < y && 0 <= j < other.width ==> g[i, j] == other.grid[i, j]
      {
        var x := 0;
        while x < other.width
          invariant 0 <= x <= other.width
          invariant forall i, j :: 0 <= i < y && 0 <= j < other.width ==> g[i, j] == other.grid[i, j]
          invariant forall j :: 0 <= j < x ==> g[y, j] == other.grid[y, j]
        {
          g[y, x] := other.grid[y, x];
          x := x + 1;
        }
        y := y + 1;
      }
      width, height := other.width, other.height;
      destinations, undoLimit := other.destinations, other.undoLimit;
      grid := g;
      players := other.players;
      cells := other.cells;
    }

    /** `GameMap.parse`: the layout of `ParseLayout` on a fresh, unset grid. */
    static method Parse(mapText: string) returns (r: Result<GameMap, ParseError>)
      ensures ParseLayout(mapText).Err? ==> r == Err(ParseLayout(mapText).error)
      ensures ParseLayout(mapText).Ok? ==>
        && r.Ok? && fresh(r.value.grid) && r.value.Valid()
        && var l := ParseLayout(mapText).value;
        && r.value.undoLimit == l.undoLimit && r.value.width == l.width && r.value.height == l.height
        && r.value.destinations == l.destinations
    ensures r.Ok? ==> (forall p :: InBounds(r.value.cells, p) ==> At(r.value.cells, p) == Unset) && r.value.players == map[]
    {
      var lines := SplitLines(mapText);
      if |lines| == 0 {
        return Err(IndexOutOfBounds);
      }
      var limit := ParseInt(lines[0]);
      if limit.None? {
        return Err(NotAnInteger);
      }
      var rows := lines[1..];
      if |rows| == 0 {
        return Err(IndexOutOfBounds);
      }
      var width := |rows[0]|;
      var dests := CollectDestinations(rows, width);
      if dests.Err? {
        return Err(dests.error);
      }
      var m := new GameMap(width, |rows|, dests.value, limit.value);
      r := Ok(m);
    }

    /** `getEntity(p)`. */
    function GetEntity(p: Position): (r: Entity)
      reads this, grid
      requires Valid() && 0 <= p.x < width && 0 <= p.y < height
      ensures InBounds(cells, p) && r == At(cells, p)
    {
      grid[p.y, p.x]
    }

    /** `putEntity(p, e)`: cell `p` now holds `e`, every other cell and the
        index are unchanged. `e` must be set: Java's switch on a null entity
        throws. */
    method PutEntity(p: Position, e: Entity)
      requires Valid() && InBounds(cells, p) && e != Unset
      modifies this, grid
      ensures Valid() && GetEntity(p) == e
      ensures cells == Put(old(cells), p, e) && players == old(players)
    {
      grid[p.y, p.x] := e;
      cells := Put(cells, p, e);
    }

    /** `getBoxPositions()`: scans the grid row by row. */
    method GetBoxPositions() returns (r: set<Position>)
      requires Valid()
      ensures r == BoxPositions(cells)
    {
      r := {};
      var y := 0;
      while y < height
        invariant 0 <= y <= height
        invariant forall p :: p in r <==> IsBoxAt(cells, p) && p.y < y
      {
        var x := 0;
        while x < width
          invariant 0 <= x <= width
          invariant forall p :: p in r <==> IsBoxAt(cells, p) && (p.y < y || (p.y == y && p.x < x))
        {
          if grid[y, x].Box? {
            r := r + {Position(x, y)};
          }
          x := x + 1;
        }
        y := y + 1;
      }
      assert r == BoxPositions(cells);
    }

    /** `getDestinations()`. */
    function GetDestinations(): (r: set<Position>)
      ensures r == destinations
    {
      destinations
    }

    /** `getUndoLimit()`: always present, `-1` included. */
    function GetUndoLimit(): (r: Option<int>)
      ensures r.Some? && r.value == undoLimit
    {
      Some(undoLimit)
    }

    function GetMaxWidth(): (r: int)
      reads this, grid
      requires Valid()
      ensures r == width == grid.Length1
    {
      width
    }

    function GetMaxHeight(): (r: int)
      reads this, grid
      requires Valid()
      ensures r == height == grid.Length0 == |cells|
    {
      height
    }
  }
}
