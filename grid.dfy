/** The tile grid shared by both world variants: a list of rows indexed `g[y][x]`,
    each cell holding EMPTY, FIRE or FOOD, and the two ways the worlds fill it from
    a stream of random draws (retry until free, or write unconditionally). */
module Grid {

  const EMPTY := 0
  const FIRE := 1
  const FOOD := 2

  /** One random draw: a column x and a row y. */
  datatype Cell = Cell(x: int, y: int)

  type Tiles = seq<seq<int>>

  /** `g` is a size-by-size grid. */
  predicate IsSquare(g: Tiles, size: nat)
  {
    |g| == size && forall y :: 0 <= y < size ==> |g[y]| == size
  }

  /** Every cell holds one of the three tile codes. */
  predicate WellFormed(g: Tiles)
  {
    forall y, x :: 0 <= y < |g| && 0 <= x < |g[y]| ==> g[y][x] in {EMPTY, FIRE, FOOD}
  }

  predicate InGrid(g: Tiles, c: Cell)
  {
    0 <= c.y < |g| && 0 <= c.x < |g[c.y]|
  }

  predicate AllInGrid(g: Tiles, draws: seq<Cell>)
  {
    forall i :: 0 <= i < |draws| ==> InGrid(g, draws[i])
  }

  /** Every draw names a cell of a size-by-size grid, as `randint(0, size - 1)`
      for both coordinates guarantees. */
  predicate Drawn(draws: seq<Cell>, size: int)
  {
    forall i :: 0 <= i < |draws| ==> 0 <= draws[i].x < size && 0 <= draws[i].y < size
  }

  lemma DrawnInGrid(g: Tiles, size: nat, draws: seq<Cell>)
    requires IsSquare(g, size) && Drawn(draws, size)
    ensures AllInGrid(g, draws)
  {
  }

  /** Two grids of the same shape. */
  predicate SameShape(g: Tiles, h: Tiles)
  {
    |g| == |h| && forall y :: 0 <= y < |g| ==> |g[y]| == |h[y]|
  }

  /** A freshly cleared size-by-size grid. */
  function Blank(size: nat): (g: Tiles)
    ensures IsSquare(g, size) && WellFormed(g)
    ensures forall y, x :: 0 <= y < size && 0 <= x < size ==> g[y][x] == EMPTY
  {
    seq(size, _ => seq(size, _ => EMPTY))
  }

  /** The grid with one cell overwritten. */
  function Put(g: Tiles, c: Cell, t: int): (r: Tiles)
    requires InGrid(g, c)
    ensures SameShape(g, r)
    ensures r[c.y][c.x] == t
    ensures forall y, x :: 0 <= y < |g| && 0 <= x < |g[y]| && (y, x) != (c.y, c.x) ==> r[y][x] == g[y][x]
  {
    g[c.y := g[c.y][c.x := t]]
  }

  /** Number of cells of one row holding tile t. */
  function CountRow(row: seq<int>, t: int): (n: nat)
    ensures n <= |row|
  {
    if row == [] then 0 else (if row[0] == t then 1 else 0) + CountRow(row[1..], t)
  }

  /** Number of cells of the grid holding tile t. */
  function Count(g: Tiles, t: int): nat
  {
    if g == [] then 0 else CountRow(g[0], t) + Count(g[1..], t)
  }

  lemma {:induction false} CountRowPut(row: seq<int>, x: nat, v: int, t: int)
    requires x < |row|
    ensures CountRow(row[x := v], t)
         == CountRow(row, t) - (if row[x] == t then 1 else 0) + (if v == t then 1 else 0)
  {
    if x == 0 {
      assert row[x := v][1..] == row[1..];
    } else {
      assert row[x := v][1..] == row[1..][x - 1 := v];
      CountRowPut(row[1..], x - 1, v, t);
    }
  }

  /** Overwriting one cell moves exactly that cell between the tile counts. */
  lemma {:induction false} CountPut(g: Tiles, c: Cell, v: int, t: int)
    requires InGrid(g, c)
    ensures Count(Put(g, c, v), t)
         == Count(g, t) - (if g[c.y][c.x] == t then 1 else 0) + (if v == t then 1 else 0)
  {
    if c.y == 0 {
      assert Put(g, c, v)[1..] == g[1..];
      CountRowPut(g[0], c.x, v, t);
    } else {
      assert Put(g, c, v)[1..] == Put(g[1..], Cell(c.x, c.y - 1), v);
      CountPut(g[1..], Cell(c.x, c.y - 1), v, t);
    }
  }

  lemma {:induction false} CountRowConst(n: nat, v: int, t: int)
    ensures CountRow(seq(n, _ => v), t) == if v == t then n else 0
  {
    if n > 0 {
      assert seq(n, _ => v)[1..] == seq(n - 1, _ => v);
      CountRowConst(n - 1, v, t);
    }
  }

  lemma {:induction false} CountRows(rows: nat, row: seq<int>, t: int)
    ensures Count(seq(rows, _ => row), t) == rows * CountRow(row, t)
  {
    if rows > 0 {
      assert seq(rows, _ => row)[1..] == seq(rows - 1, _ => row);
      CountRows(rows - 1, row, t);
    }
  }

  /** A cell holding t is counted. */
  lemma CountPositive(g: Tiles, c: Cell, t: int)
    requires InGrid(g, c) && g[c.y][c.x] == t
    ensures Count(g, t) >= 1
  {
    CountPut(g, c, t + 1, t);
  }

  /** A cleared grid is all EMPTY and holds no other tile. */
  lemma CountBlank(size: nat, t: int)
    ensures Count(Blank(size), t) == if t == EMPTY then size * size else 0
  {
    CountRowConst(size, EMPTY, t);
    CountRows(size, seq(size, _ => EMPTY), t);
  }

  /** Result of drawing cells until enough of them have been filled: the grid,
      how many tiles were placed, and the position of the first unused draw. */
  datatype Placement = Placement(grid: Tiles, placed: nat, next: nat)

  /** Retry placement: draws are taken in order from position i; a draw is
      accepted when its cell is EMPTY and not reserved, and then `tile` is written
      there. It stops after `need` acceptances or when the draws run out. */
  function Scatter(g: Tiles, tile: int, need: nat, draws: seq<Cell>, i: nat, reserved: set<Cell>): (r: Placement)
    requires i <= |draws| && AllInGrid(g, draws)
    ensures SameShape(g, r.grid) && AllInGrid(r.grid, draws)
    ensures r.placed <= need
    ensures i <= r.next <= |draws|
    ensures r.placed < need ==> r.next == |draws|
    decreases |draws| - i
  {
    if need == 0 || i == |draws| then Placement(g, 0, i)
    else
      var c := draws[i];
      if g[c.y][c.x] == EMPTY && c !in reserved then
        var r := Scatter(Put(g, c, tile), tile, need - 1, draws, i + 1, reserved);
        Placement(r.grid, r.placed + 1, r.next)
      else
        Scatter(g, tile, need, draws, i + 1, reserved)
  }

  /** Retry placement moves cells from EMPTY to `tile` only: the placed tile's
      count grows by exactly the number placed, the EMPTY count shrinks by it,
      and every other tile's count stays. */
  lemma {:induction false} ScatterCounts(g: Tiles, tile: int, need: nat, draws: seq<Cell>, i: nat, reserved: set<Cell>)
    requires i <= |draws| && AllInGrid(g, draws) && tile != EMPTY
    ensures var r := Scatter(g, tile, need, draws, i, reserved);
      && Count(r.grid, tile) == Count(g, tile) + r.placed
      && Count(r.grid, EMPTY) + r.placed == Count(g, EMPTY)
      && (forall t :: t != tile && t != EMPTY ==> Count(r.grid, t) == Count(g, t))
    decreases |draws| - i
  {
    if need == 0 || i == |draws| {
    } else {
      var c := draws[i];
      if g[c.y][c.x] == EMPTY && c !in reserved {
        var g' := Put(g, c, tile);
        ScatterCounts(g', tile, need - 1, draws, i + 1, reserved);
        CountPut(g, c, tile, tile);
        CountPut(g, c, tile, EMPTY);
        forall t | t != tile && t != EMPTY ensures Count(g', t) == Count(g, t) {
          CountPut(g, c, tile, t);
        }
      } else {
        ScatterCounts(g, tile, need, draws, i + 1, reserved);
      }
    }
  }

  /** Retry placement only ever turns free, unreserved cells into `tile`. */
  lemma {:induction false} ScatterCells(g: Tiles, tile: int, need: nat, draws: seq<Cell>, i: nat, reserved: set<Cell>)
    requires i <= |draws| && AllInGrid(g, draws)
    ensures var r := Scatter(g, tile, need, draws, i, reserved);
      forall y, x :: 0 <= y < |g| && 0 <= x < |g[y]| && r.grid[y][x] != g[y][x] ==>
        g[y][x] == EMPTY && r.grid[y][x] == tile && Cell(x, y) !in reserved
    decreases |draws| - i
  {
    if need == 0 || i == |draws| {
    } else {
      var c := draws[i];
      if g[c.y][c.x] == EMPTY && c !in reserved {
        ScatterCells(Put(g, c, tile), tile, need - 1, draws, i + 1, reserved);
      } else {
        ScatterCells(g, tile, need, draws, i + 1, reserved);
      }
    }
  }

  /** Retry placement of a valid tile keeps every cell a valid tile. */
  lemma ScatterWellFormed(g: Tiles, tile: int, need: nat, draws: seq<Cell>, i: nat, reserved: set<Cell>)
    requires i <= |draws| && AllInGrid(g, draws) && WellFormed(g) && tile in {FIRE, FOOD}
    ensures WellFormed(Scatter(g, tile, need, draws, i, reserved).grid)
  {
    var r := Scatter(g, tile, need, draws, i, reserved);
    ScatterCells(g, tile, need, draws, i, reserved);
    forall y, x | 0 <= y < |r.grid| && 0 <= x < |r.grid[y]|
      ensures r.grid[y][x] in {EMPTY, FIRE, FOOD}
    {
      assert r.grid[y][x] == g[y][x] || r.grid[y][x] == tile;
    }
  }

  /** Unconditional placement: `tile` is written at every draw in order, whatever
      the cell held before. */
  function Paint(g: Tiles, tile: int, draws: seq<Cell>): (r: Tiles)
    requires AllInGrid(g, draws)
    ensures SameShape(g, r)
  {
    if draws == [] then g
    else
      var p := Paint(g, tile, draws[..|draws| - 1]);
      Put(p, draws[|draws| - 1], tile)
  }

  /** Unconditional placement writes `tile` exactly at the drawn cells: its count
      grows by at most the number of draws and never shrinks, other tiles lose at
      most that many cells, and undrawn cells keep their tile. */
  lemma {:induction false} PaintEffect(g: Tiles, tile: int, draws: seq<Cell>)
    requires AllInGrid(g, draws)
    ensures var r := Paint(g, tile, draws);
      && Count(g, tile) <= Count(r, tile) <= Count(g, tile) + |draws|
      && (forall t :: t != tile ==> Count(g, t) - |draws| <= Count(r, t) <= Count(g, t))
      && (forall i :: 0 <= i < |draws| ==> r[draws[i].y][draws[i].x] == tile)
      && (forall y, x :: 0 <= y < |g| && 0 <= x < |g[y]| && Cell(x, y) !in draws ==> r[y][x] == g[y][x])
  {
    if draws != [] {
      var d := draws[..|draws| - 1];
      var c := draws[|draws| - 1];
      assert AllInGrid(g, d);
      PaintEffect(g, tile, d);
      var p := Paint(g, tile, d);
      CountPut(p, c, tile, tile);
      forall t | t != tile ensures Count(g, t) - |draws| <= Count(Put(p, c, tile), t) <= Count(g, t) {
        CountPut(p, c, tile, t);
      }
      forall y, x | 0 <= y < |g| && 0 <= x < |g[y]| && Cell(x, y) !in draws
        ensures Put(p, c, tile)[y][x] == g[y][x]
      {
        assert Cell(x, y) !in d;
      }
      forall i | 0 <= i < |draws| ensures Put(p, c, tile)[draws[i].y][draws[i].x] == tile {
        if i < |draws| - 1 {
          assert draws[i] == d[i];
        }
      }
    }
  }

  /** Unconditional placement of a valid tile keeps every cell a valid tile. */
  lemma {:induction false} PaintWellFormed(g: Tiles, tile: int, draws: seq<Cell>)
    requires AllInGrid(g, draws) && WellFormed(g) && tile in {FIRE, FOOD}
    ensures WellFormed(Paint(g, tile, draws))
  {
    if draws != [] {
      assert AllInGrid(g, draws[..|draws| - 1]);
      PaintWellFormed(g, tile, draws[..|draws| - 1]);
    }
  }
}
