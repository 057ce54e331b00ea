/** The standalone world of world.py: a size-by-size grid (10 by default) with
    three fires written unconditionally, then three food items each placed on
    the first empty cell drawn; the 3x3 neighbourhood sensors; and eating. */
module VariantWorld {
  import opened Grid

  const FIRE_COUNT: nat := 3
  const FOOD_COUNT: nat := 3

  /** Some on-grid cell with column in [x0, x1] and row in [y0, y1] holds tile. */
  predicate Block(g: Tiles, size: nat, tile: int, x0: int, x1: int, y0: int, y1: int)
    requires IsSquare(g, size)
  {
    exists ny, nx :: y0 <= ny <= y1 && x0 <= nx <= x1 && 0 <= nx < size && 0 <= ny < size && g[ny][nx] == tile
  }

  /** Some on-grid cell of the 3x3 block centred on (x, y), the centre
      included, holds tile. */
  predicate Near(g: Tiles, size: nat, x: int, y: int, tile: int)
    requires IsSquare(g, size)
  {
    Block(g, size, tile, x - 1, x + 1, y - 1, y + 1)
  }

  /** The map `get_sensors` returns at (x, y). */
  function Readings(g: Tiles, size: nat, x: int, y: int): map<string, int>
    requires IsSquare(g, size)
  {
    map["fire_sensor" := if Near(g, size, x, y, FIRE) then 1 else 0,
        "food_sensor" := if Near(g, size, x, y, FOOD) then 1 else 0]
  }

  /** A block is the block one column narrower plus its last column. */
  lemma BlockColumns(g: Tiles, size: nat, tile: int, x0: int, x1: int, y0: int, y1: int)
    requires IsSquare(g, size) && x0 <= x1
    ensures Block(g, size, tile, x0, x1, y0, y1)
        <==> Block(g, size, tile, x0, x1 - 1, y0, y1) || Block(g, size, tile, x1, x1, y0, y1)
  {
    if Block(g, size, tile, x0, x1, y0, y1) {
      var ny, nx :| y0 <= ny <= y1 && x0 <= nx <= x1 && 0 <= nx < size && 0 <= ny < size && g[ny][nx] == tile;
      if nx < x1 {
        assert Block(g, size, tile, x0, x1 - 1, y0, y1);
      } else {
        assert Block(g, size, tile, x1, x1, y0, y1);
      }
    }
    if Block(g, size, tile, x0, x1 - 1, y0, y1) {
      var ny, nx :| y0 <= ny <= y1 && x0 <= nx <= x1 - 1 && 0 <= nx < size && 0 <= ny < size && g[ny][nx] == tile;
      assert Block(g, size, tile, x0, x1, y0, y1);
    }
    if Block(g, size, tile, x1, x1, y0, y1) {
      var ny, nx :| y0 <= ny <= y1 && x1 <= nx <= x1 && 0 <= nx < size && 0 <= ny < size && g[ny][nx] == tile;
      assert Block(g, size, tile, x0, x1, y0, y1);
    }
  }

  /** A column stretch is the stretch one row shorter plus its last cell. */
  lemma BlockRows(g: Tiles, size: nat, tile: int, x: int, y0: int, y1: int)
    requires IsSquare(g, size)
    ensures Block(g, size, tile, x, x, y0, y1)
        <==> Block(g, size, tile, x, x, y0, y1 - 1) || (y0 <= y1 && 0 <= x < size && 0 <= y1 < size && g[y1][x] == tile)
  {
    if Block(g, size, tile, x, x, y0, y1) {
      var ny, nx :| y0 <= ny <= y1 && x <= nx <= x && 0 <= nx < size && 0 <= ny < size && g[ny][nx] == tile;
      if ny < y1 {
        assert Block(g, size, tile, x, x, y0, y1 - 1);
      }
    }
    if y0 <= y1 && 0 <= x < size && 0 <= y1 < size && g[y1][x] == tile {
      assert g[y1][x] == tile;
    }
  }

  /** The readings depend only on the 3x3 block: two grids that agree there
      give the same map. */
  lemma ReadingsLocal(g: Tiles, h: Tiles, size: nat, x: int, y: int)
    requires IsSquare(g, size) && IsSquare(h, size)
    requires forall ny, nx :: y - 1 <= ny <= y + 1 && x - 1 <= nx <= x + 1 && 0 <= nx < size && 0 <= ny < size ==> g[ny][nx] == h[ny][nx]
    ensures Readings(g, size, x, y) == Readings(h, size, x, y)
  {
    forall tile ensures Near(g, size, x, y, tile) ==> Near(h, size, x, y, tile) {
      if Near(g, size, x, y, tile) {
        var ny, nx :| y - 1 <= ny <= y + 1 && x - 1 <= nx <= x + 1 && 0 <= nx < size && 0 <= ny < size && g[ny][nx] == tile;
        assert h[ny][nx] == tile;
      }
    }
    forall tile ensures Near(h, size, x, y, tile) ==> Near(g, size, x, y, tile) {
      if Near(h, size, x, y, tile) {
        var ny, nx :| y - 1 <= ny <= y + 1 && x - 1 <= nx <= x + 1 && 0 <= nx < size && 0 <= ny < size && h[ny][nx] == tile;
        assert g[ny][nx] == tile;
      }
    }
  }

  /** A cleared neighbourhood reads 0 for both sensors; a fire or a food item on
      any of the nine cells, the character's own cell included, turns its
      sensor on. */
  lemma ReadingsCells(g: Tiles, size: nat, x: int, y: int, nx: int, ny: int)
    requires IsSquare(g, size) && 0 <= nx < size && 0 <= ny < size
    requires y - 1 <= ny <= y + 1 && x - 1 <= nx <= x + 1
    ensures g[ny][nx] == FIRE ==> Readings(g, size, x, y)["fire_sensor"] == 1
    ensures g[ny][nx] == FOOD ==> Readings(g, size, x, y)["food_sensor"] == 1
    ensures (forall my, mx :: y - 1 <= my <= y + 1 && x - 1 <= mx <= x + 1 && 0 <= mx < size && 0 <= my < size ==> g[my][mx] == EMPTY)
        ==> Readings(g, size, x, y) == map["fire_sensor" := 0, "food_sensor" := 0]
  {
    if g[ny][nx] == FIRE {
      assert Near(g, size, x, y, FIRE);
    }
    if g[ny][nx] == FOOD {
      assert Near(g, size, x, y, FOOD);
    }
  }

  /** Eating at c: food there is removed (the cell becomes EMPTY) and the
      result says so; any other tile is left alone. */
  function Eat(g: Tiles, c: Cell): (r: (bool, Tiles))
    requires InGrid(g, c)
    ensures r.0 <==> g[c.y][c.x] == FOOD
    ensures SameShape(g, r.1) && r.1[c.y][c.x] != FOOD
  {
    if g[c.y][c.x] == FOOD then (true, Put(g, c, EMPTY)) else (false, g)
  }

  /** Eating moves one cell from FOOD to EMPTY when it reports success and
      changes nothing otherwise; a second meal on the same cell always fails
      and changes nothing. */
  lemma EatEffect(g: Tiles, c: Cell)
    requires InGrid(g, c)
    ensures var (ate, h) := Eat(g, c);
      && Count(h, FOOD) + (if ate then 1 else 0) == Count(g, FOOD)
      && Count(h, EMPTY) == Count(g, EMPTY) + (if ate then 1 else 0)
      && (forall t :: t != FOOD && t != EMPTY ==> Count(h, t) == Count(g, t))
      && (forall y, x :: 0 <= y < |g| && 0 <= x < |g[y]| && (y, x) != (c.y, c.x) ==> h[y][x] == g[y][x])
      && Eat(h, c) == (false, h)
  {
    if g[c.y][c.x] == FOOD {
      CountPut(g, c, EMPTY, FOOD);
      CountPut(g, c, EMPTY, EMPTY);
      forall t | t != FOOD && t != EMPTY ensures Count(Put(g, c, EMPTY), t) == Count(g, t) {
        CountPut(g, c, EMPTY, t);
      }
    }
  }

  /** What a new world ends with: the grid, the number of fire draws used (three
      unless the draws run out), the number of food items placed, and the
      position of the first unused draw. */
  datatype Populated = Populated(grid: Tiles, fires: nat, foods: nat, rest: nat)

  function Populate(size: nat, draws: seq<Cell>): Populated
    requires Drawn(draws, size)
  {
    var b := Blank(size);
    var n := if |draws| < FIRE_COUNT then |draws| else FIRE_COUNT;
    DrawnInGrid(b, size, draws);
    var f := Paint(b, FIRE, draws[..n]);
    PaintedInGrid(b, f, draws);
    var d := Scatter(f, FOOD, FOOD_COUNT, draws, n, {});
    Populated(d.grid, n, d.placed, d.next)
  }

  /** Painting one more draw of a stretch of the stream puts the tile on that
      draw's cell last. */
  lemma PaintSnoc(g: Tiles, tile: int, draws: seq<Cell>, from: nat, next: nat)
    requires from <= next < |draws| && AllInGrid(g, draws)
    ensures AllInGrid(g, draws[from..next]) && AllInGrid(g, draws[from..next + 1])
    ensures InGrid(Paint(g, tile, draws[from..next]), draws[next])
    ensures Paint(g, tile, draws[from..next + 1]) == Put(Paint(g, tile, draws[from..next]), draws[next], tile)
  {
    var d := draws[from..next + 1];
    assert d[..|d| - 1] == draws[from..next] && d[|d| - 1] == draws[next];
    assert AllInGrid(g, draws[from..next]) && AllInGrid(g, d);
    assert InGrid(g, draws[next]);
  }

  /** A painted grid keeps its shape, so the draws still fall inside it. */
  lemma PaintedInGrid(b: Tiles, f: Tiles, draws: seq<Cell>)
    requires AllInGrid(b, draws) && SameShape(b, f)
    ensures AllInGrid(f, draws)
  {
    forall i | 0 <= i < |draws| ensures InGrid(f, draws[i]) {
      assert InGrid(b, draws[i]);
    }
  }

  /** A new world's grid is size by size and holds tile codes only; between one
      and three fires (overlapping draws share a cell), and every fire draw
      holds a fire: food never lands on one. */
  lemma PopulateFires(size: nat, draws: seq<Cell>)
    requires Drawn(draws, size)
    ensures var p := Populate(size, draws);
      && IsSquare(p.grid, size) && WellFormed(p.grid)
      && p.fires == (if |draws| < FIRE_COUNT then |draws| else FIRE_COUNT)
      && (p.fires > 0 ==> 1 <= Count(p.grid, FIRE)) && Count(p.grid, FIRE) <= p.fires
      && (forall i :: 0 <= i < p.fires ==> p.grid[draws[i].y][draws[i].x] == FIRE)
  {
    var b := Blank(size);
    var n := if |draws| < FIRE_COUNT then |draws| else FIRE_COUNT;
    DrawnInGrid(b, size, draws);
    var fd := draws[..n];
    assert AllInGrid(b, fd);
    var f := Paint(b, FIRE, fd);
    PaintedInGrid(b, f, draws);
    PaintEffect(b, FIRE, fd);
    PaintWellFormed(b, FIRE, fd);
    CountBlank(size, FIRE);
    ScatterCounts(f, FOOD, FOOD_COUNT, draws, n, {});
    ScatterCells(f, FOOD, FOOD_COUNT, draws, n, {});
    ScatterWellFormed(f, FOOD, FOOD_COUNT, draws, n, {});
    var d := Scatter(f, FOOD, FOOD_COUNT, draws, n, {});
    if n > 0 {
      assert fd[0] == draws[0];
      CountPositive(d.grid, draws[0], FIRE);
    }
    forall i | 0 <= i < n ensures d.grid[draws[i].y][draws[i].x] == FIRE {
      assert fd[i] == draws[i];
    }
  }

  /** A new world holds as many food items as were placed, three unless the
      draws ran out, and every cell that holds neither fire nor food is EMPTY. */
  lemma PopulateFood(size: nat, draws: seq<Cell>)
    requires Drawn(draws, size)
    ensures var p := Populate(size, draws);
      && Count(p.grid, FOOD) == p.foods <= FOOD_COUNT
      && (p.foods < FOOD_COUNT ==> p.rest == |draws|)
      && Count(p.grid, EMPTY) == size * size - Count(p.grid, FIRE) - p.foods
  {
    var b := Blank(size);
    var n := if |draws| < FIRE_COUNT then |draws| else FIRE_COUNT;
    DrawnInGrid(b, size, draws);
    var fd := draws[..n];
    assert AllInGrid(b, fd);
    var f := Paint(b, FIRE, fd);
    PaintedInGrid(b, f, draws);
    PaintEffect(b, FIRE, fd);
    CountBlank(size, FOOD);
    ScatterCounts(f, FOOD, FOOD_COUNT, draws, n, {});
    PaintTotal(b, fd, size);
  }

  /** Painting fires on a blank grid keeps the three counts summing to size * size. */
  lemma PaintTotal(b: Tiles, fd: seq<Cell>, size: nat)
    requires b == Blank(size) && AllInGrid(b, fd)
    ensures var f := Paint(b, FIRE, fd); Count(f, FIRE) + Count(f, FOOD) + Count(f, EMPTY) == size * size
  {
    CountBlank(size, FIRE);
    CountBlank(size, FOOD);
    CountBlank(size, EMPTY);
    PaintTotalFrom(b, fd);
  }

  lemma {:induction false} PaintTotalFrom(b: Tiles, fd: seq<Cell>)
    requires AllInGrid(b, fd) && WellFormed(b)
    ensures var f := Paint(b, FIRE, fd);
      Count(f, FIRE) + Count(f, FOOD) + Count(f, EMPTY) == Count(b, FIRE) + Count(b, FOOD) + Count(b, EMPTY)
  {
    if fd != [] {
      var d := fd[..|fd| - 1];
      var c := fd[|fd| - 1];
      assert AllInGrid(b, d);
      PaintTotalFrom(b, d);
      var p := Paint(b, FIRE, d);
      PaintWellFormed(b, FIRE, d);
      assert InGrid(p, c);
      assert p[c.y][c.x] in {EMPTY, FIRE, FOOD};
      CountPut(p, c, FIRE, FIRE);
      CountPut(p, c, FIRE, FOOD);
      CountPut(p, c, FIRE, EMPTY);
    }
  }

  class World {
    const size: nat
    var grid: Tiles

    /** The grid is size by size and holds only tile codes. */
    predicate Valid()
      reads this
    {
      IsSquare(grid, size) && WellFormed(grid)
    }

    /** `World(size)`: a cleared grid, then `place_fires(3)` and
        `place_food(3)`, drawing from `draws` in order. */
    constructor (draws: seq<Cell>, size: nat := 10)
      requires size > 0 && Drawn(draws, size)
      ensures Valid() && this.size == size
      ensures grid == Populate(size, draws).grid
    {
      this.size := size;
      grid := Blank(size);
      new;
      var next := PlaceFires(FIRE_COUNT, draws, 0);
      var placed;
      placed, next := PlaceFood(FOOD_COUNT, draws, next);
      PopulateFires(size, draws);
    }

    /** `place_fires(num)`: each of the next num draws gets a fire, whatever the
        cell held. Returns the position of the first unused draw. */
    method PlaceFires(num: nat, draws: seq<Cell>, from: nat) returns (next: nat)
      requires Valid() && Drawn(draws, size) && from <= |draws|
      modifies this
      ensures next == if from + num <= |draws| then from + num else |draws|
      ensures Valid() && AllInGrid(old(grid), draws[from..next])
      ensures grid == Paint(old(grid), FIRE, draws[from..next])
    {
      DrawnInGrid(grid, size, draws);
      ghost var g0 := grid;
      next := from;
      var i := 0;
      while i < num && next < |draws|
        invariant from <= next <= |draws| && next == from + i && i <= num
        invariant IsSquare(grid, size) && AllInGrid(grid, draws)
        invariant AllInGrid(g0, draws[from..next]) && grid == Paint(g0, FIRE, draws[from..next])
      {
        PaintSnoc(g0, FIRE, draws, from, next);
        grid := Put(grid, draws[next], FIRE);
        next := next + 1;
        i := i + 1;
      }
      PaintWellFormed(g0, FIRE, draws[from..next]);
    }

    /** `place_food(num)`: for each item, draw until an EMPTY cell comes up and
        put the food there. Returns how many items were placed, num unless the
        draws ran out, and the position of the first unused draw. */
    method PlaceFood(num: nat, draws: seq<Cell>, from: nat) returns (placed: nat, next: nat)
      requires Valid() && Drawn(draws, size) && from <= |draws|
      modifies this
      ensures Valid() && AllInGrid(old(grid), draws)
      ensures Scatter(old(grid), FOOD, num, draws, from, {}) == Placement(grid, placed, next)
    {
      DrawnInGrid(grid, size, draws);
      ghost var f := Scatter(grid, FOOD, num, draws, from, {});
      placed := 0;
      next := from;
      while placed < num && next < |draws|
        invariant from <= next <= |draws| && placed <= f.placed
        invariant IsSquare(grid, size) && AllInGrid(grid, draws)
        invariant Scatter(grid, FOOD, num - placed, draws, next, {}) == Placement(f.grid, f.placed - placed, f.next)
        decreases |draws| - next
      {
        var c;
        c, next := Redraw(draws, next, num - placed, Placement(f.grid, f.placed - placed, f.next));
        if grid[c.y][c.x] == EMPTY {
          grid := Put(grid, c, FOOD);
          placed := placed + 1;
        }
      }
      ScatterWellFormed(old(grid), FOOD, num, draws, from, {});
    }

    /** The inner loop of `place_food`: take the draw at `next`, and keep drawing
        while the cell drawn is not EMPTY and draws remain. Skipped draws do not
        change what the remaining placement yields. */
    method Redraw(draws: seq<Cell>, from: nat, need: nat, ghost f: Placement) returns (c: Cell, next: nat)
      requires from < |draws| && need > 0 && IsSquare(grid, size) && AllInGrid(grid, draws)
      requires Scatter(grid, FOOD, need, draws, from, {}) == f
      ensures from < next <= |draws| && c == draws[next - 1]
      ensures grid[c.y][c.x] == EMPTY || next == |draws|
      ensures Scatter(grid, FOOD, need, draws, next - 1, {}) == f
    {
      c := draws[from];
      next := from + 1;
      while grid[c.y][c.x] != EMPTY && next < |draws|
        invariant from < next <= |draws| && c == draws[next - 1]
        invariant Scatter(grid, FOOD, need, draws, next - 1, {}) == f
        decreases |draws| - next
      {
        c := draws[next];
        next := next + 1;
      }
    }

    /** `get_sensors`: scans the 3x3 block column by column and turns a sensor
        on for every on-grid cell holding its tile. */
    method GetSensors(cx: int, cy: int) returns (sensors: map<string, int>)
      requires Valid()
      ensures sensors == Readings(grid, size, cx, cy)
    {
      var fire, food := 0, 0;
      var dx := -1;
      while dx <= 1
        invariant -1 <= dx <= 2
        invariant fire == if Block(grid, size, FIRE, cx - 1, cx + dx - 1, cy - 1, cy + 1) then 1 else 0
        invariant food == if Block(grid, size, FOOD, cx - 1, cx + dx - 1, cy - 1, cy + 1) then 1 else 0
      {
        fire, food := ScanColumn(cx + dx, cy, fire, food);
        BlockColumns(grid, size, FIRE, cx - 1, cx + dx, cy - 1, cy + 1);
        BlockColumns(grid, size, FOOD, cx - 1, cx + dx, cy - 1, cy + 1);
        dx := dx + 1;
      }
      sensors := map["fire_sensor" := fire, "food_sensor" := food];
    }

    /** The inner loop of `get_sensors` for column nx: the rows cy - 1 to cy + 1
        in order, each on-grid cell turning on the sensor of its tile. */
    method ScanColumn(nx: int, cy: int, fire0: int, food0: int) returns (fire: int, food: int)
      requires Valid()
      ensures fire == if fire0 == 1 || Block(grid, size, FIRE, nx, nx, cy - 1, cy + 1) then 1 else fire0
      ensures food == if food0 == 1 || Block(grid, size, FOOD, nx, nx, cy - 1, cy + 1) then 1 else food0
    {
      fire, food := fire0, food0;
      var dy := -1;
      while dy <= 1
        invariant -1 <= dy <= 2
        invariant fire == if fire0 == 1 || Block(grid, size, FIRE, nx, nx, cy - 1, cy + dy - 1) then 1 else fire0
        invariant food == if food0 == 1 || Block(grid, size, FOOD, nx, nx, cy - 1, cy + dy - 1) then 1 else food0
      {
        var ny := cy + dy;
        BlockRows(grid, size, FIRE, nx, cy - 1, ny);
        BlockRows(grid, size, FOOD, nx, cy - 1, ny);
        if 0 <= nx < size && 0 <= ny < size {
          if grid[ny][nx] == FIRE {
            fire := 1;
          } else if grid[ny][nx] == FOOD {
            food := 1;
          }
        }
        dy := dy + 1;
      }
    }

    /** `eat_food`: food under (cx, cy) is removed and reported. */
    method EatFood(cx: int, cy: int) returns (ate: bool)
      requires Valid() && 0 <= cx < size && 0 <= cy < size
      modifies this
      ensures Valid()
      ensures (ate, grid) == Eat(old(grid), Cell(cx, cy))
    {
      ate := false;
      if grid[cy][cx] == FOOD {
        grid := Put(grid, Cell(cx, cy), EMPTY);
        ate := true;
      }
    }
  }
}
