/** The world of main.py: a fixed 10-by-10 grid refilled with three fires and
    four foods, never on the start cell, and the sensor that reports what lies in
    the four neighbouring cells. */
module MainWorld {
  import opened Grid

  const SIZE: nat := 10
  const FIRES: nat := 3
  const FOODS: nat := 4
  /** The cell the character starts on; nothing is ever placed there. */
  const START := Cell(5, 5)

  /** The eight keys of the sensor map. */
  const SENSORS: set<string> := {
    "fire_left", "fire_right", "fire_up", "fire_down",
    "food_left", "food_right", "food_up", "food_down"}

  /** Outcome of `spawn_objects` on a stream of draws: the grid, the final
      values of the fire and food counters, and the position of the first draw
      left unused. */
  datatype Spawned = Spawned(grid: Tiles, fires: nat, foods: nat, next: nat)

  /** `spawn_objects`: clear the grid, place fires by retry until three are down,
      then foods by retry until four are down, both away from the start cell; the
      food loop takes the draws the fire loop left over. */
  function Spawn(draws: seq<Cell>): Spawned
    requires Drawn(draws, SIZE)
  {
    DrawnInGrid(Blank(SIZE), SIZE, draws);
    var f := Scatter(Blank(SIZE), FIRE, FIRES, draws, 0, {START});
    var d := Scatter(f.grid, FOOD, FOODS, draws, f.next, {START});
    Spawned(d.grid, f.placed, d.placed, d.next)
  }

  /** After `spawn_objects` the grid is 10 by 10 and well formed, each counter
      equals the number of tiles of its kind on the grid, at most three fires and
      four foods are placed, food placement only starts once all three fires are
      down, everything else is empty, and the start cell is empty. Either loop
      stops short only once the draws run out, so when the draws suffice that is
      exactly 3 fires, 4 foods and 93 empty cells. */
  lemma SpawnCounts(draws: seq<Cell>)
    requires Drawn(draws, SIZE)
    ensures var s := Spawn(draws);
      && IsSquare(s.grid, SIZE) && WellFormed(s.grid)
      && Count(s.grid, FIRE) == s.fires <= FIRES
      && Count(s.grid, FOOD) == s.foods <= FOODS
      && Count(s.grid, EMPTY) == SIZE * SIZE - s.fires - s.foods
      && (s.fires < FIRES ==> s.foods == 0)
      && s.grid[START.y][START.x] == EMPTY
      && s.next <= |draws|
      && (s.fires < FIRES || s.foods < FOODS ==> s.next == |draws|)
  {
    var b := Blank(SIZE);
    DrawnInGrid(b, SIZE, draws);
    var f := Scatter(b, FIRE, FIRES, draws, 0, {START});
    CountBlank(SIZE, FIRE);
    CountBlank(SIZE, FOOD);
    CountBlank(SIZE, EMPTY);
    ScatterCounts(b, FIRE, FIRES, draws, 0, {START});
    ScatterCounts(f.grid, FOOD, FOODS, draws, f.next, {START});
    ScatterWellFormed(b, FIRE, FIRES, draws, 0, {START});
    ScatterWellFormed(f.grid, FOOD, FOODS, draws, f.next, {START});
    ScatterCells(b, FIRE, FIRES, draws, 0, {START});
    ScatterCells(f.grid, FOOD, FOODS, draws, f.next, {START});
    assert b[START.y][START.x] == EMPTY;
  }

  /** What a neighbour shows for one tile: 1.0 when (nx, ny) is on the grid and
      holds the tile, 0.0 otherwise. */
  function Seen(g: Tiles, nx: int, ny: int, tile: int): (r: real)
    requires IsSquare(g, SIZE)
    ensures r == 1.0 || r == 0.0
    ensures r == 1.0 <==> 0 <= nx < SIZE && 0 <= ny < SIZE && g[ny][nx] == tile
  {
    if 0 <= nx < SIZE && 0 <= ny < SIZE && g[ny][nx] == tile then 1.0 else 0.0
  }

  /** The sensor map `sense_nearby` returns at (x, y): left is x - 1, right is
      x + 1, up is y - 1 and down is y + 1. */
  function Senses(g: Tiles, x: int, y: int): map<string, real>
    requires IsSquare(g, SIZE)
  {
    map[
      "fire_left" := Seen(g, x - 1, y, FIRE), "fire_right" := Seen(g, x + 1, y, FIRE),
      "fire_up" := Seen(g, x, y - 1, FIRE), "fire_down" := Seen(g, x, y + 1, FIRE),
      "food_left" := Seen(g, x - 1, y, FOOD), "food_right" := Seen(g, x + 1, y, FOOD),
      "food_up" := Seen(g, x, y - 1, FOOD), "food_down" := Seen(g, x, y + 1, FOOD)]
  }

  /** One entry of the direction table: the two sensor keys it fills and the
      step to the neighbour. */
  datatype Direction = Direction(fire: string, food: string, dx: int, dy: int)

  /** The direction table of `sense_nearby`, in its order. */
  const DIRECTIONS: seq<Direction> := [
    Direction("fire_left", "food_left", -1, 0), Direction("fire_right", "food_right", 1, 0),
    Direction("fire_up", "food_up", 0, -1), Direction("fire_down", "food_down", 0, 1)]

  class World {
    const s: int
    var g: Tiles

    /** The grid is s by s with s = 10, and holds only tile codes. */
    predicate Valid()
      reads this
    {
      s == SIZE && IsSquare(g, SIZE) && WellFormed(g)
    }

    /** A new world is spawned straight away. */
    constructor (draws: seq<Cell>)
      requires Drawn(draws, SIZE)
      ensures Valid() && g == Spawn(draws).grid
    {
      s := SIZE;
      g := Blank(SIZE);
      new;
      var fires, foods := SpawnObjects(draws);
    }

    /** `spawn_objects`, drawing from `draws` in order; the retry loops stop early
        only when the draws run out. Returns the two counters. */
    method SpawnObjects(draws: seq<Cell>) returns (fireCount: nat, foodCount: nat)
      requires Drawn(draws, SIZE)
      modifies this
      ensures IsSquare(g, SIZE) && WellFormed(g)
      ensures var s := Spawn(draws); g == s.grid && fireCount == s.fires && foodCount == s.foods
    {
      g := Blank(SIZE);
      var i;
      fireCount, i := Place(FIRE, FIRES, draws, 0);
      foodCount, i := Place(FOOD, FOODS, draws, i);
      SpawnCounts(draws);
    }

    /** One counter loop of `spawn_objects`: draw from position `from` on until
        `need` tiles are placed or the draws run out; a draw is taken when its
        cell is empty and is not the start cell. Returns the counter and the
        position of the first unused draw. */
    method Place(tile: int, need: nat, draws: seq<Cell>, from: nat) returns (count: nat, next: nat)
      requires IsSquare(g, SIZE) && Drawn(draws, SIZE) && from <= |draws|
      modifies this
      ensures IsSquare(g, SIZE) && AllInGrid(old(g), draws)
      ensures Scatter(old(g), tile, need, draws, from, {START}) == Placement(g, count, next)
    {
      DrawnInGrid(g, SIZE, draws);
      ghost var f := Scatter(g, tile, need, draws, from, {START});
      count := 0;
      next := from;
      while count < need && next < |draws|
        invariant from <= next <= |draws| && count <= f.placed
        invariant IsSquare(g, SIZE) && AllInGrid(g, draws)
        invariant Scatter(g, tile, need - count, draws, next, {START}) == Placement(f.grid, f.placed - count, f.next)
        decreases |draws| - next
      {
        var c := draws[next];
        if g[c.y][c.x] == EMPTY && !(c.x == START.x && c.y == START.y) {
          g := Put(g, c, tile);
          count := count + 1;
        }
        next := next + 1;
      }
    }

    /** `sense_nearby`: the eight sensors start at 0.0 and each direction whose
        neighbour is on the grid turns on the fire or food sensor it sees. */
    method SenseNearby(x: int, y: int) returns (sensors: map<string, real>)
      requires Valid()
      ensures sensors == Senses(g, x, y)
    {
      sensors := map[
        "fire_left" := 0.0, "fire_right" := 0.0, "fire_up" := 0.0, "fire_down" := 0.0,
        "food_left" := 0.0, "food_right" := 0.0, "food_up" := 0.0, "food_down" := 0.0];
      var k := 0;
      while k < |DIRECTIONS|
        invariant 0 <= k <= |DIRECTIONS|
        invariant sensors == SensedUpTo(g, x, y, k)
      {
        var d := DIRECTIONS[k];
        var nx, ny := x + d.dx, y + d.dy;
        if 0 <= nx < s && 0 <= ny < s {
          if g[ny][nx] == FIRE {
            sensors := sensors[d.fire := 1.0];
          }
          if g[ny][nx] == FOOD {
            sensors := sensors[d.food := 1.0];
          }
        }
        k := k + 1;
      }
      SensedAll(g, x, y, k);
    }
  }

  /** The sensor map after the first k directions of the table. */
  function SensedUpTo(g: Tiles, x: int, y: int, k: nat): (r: map<string, real>)
    requires IsSquare(g, SIZE) && k <= |DIRECTIONS|
    ensures r.Keys == SENSORS
  {
    if k == 0 then map[
      "fire_left" := 0.0, "fire_right" := 0.0, "fire_up" := 0.0, "fire_down" := 0.0,
      "food_left" := 0.0, "food_right" := 0.0, "food_up" := 0.0, "food_down" := 0.0]
    else
      var m := SensedUpTo(g, x, y, k - 1);
      var d := DIRECTIONS[k - 1];
      var m' := if Seen(g, x + d.dx, y + d.dy, FIRE) == 1.0 then m[d.fire := 1.0] else m;
      if Seen(g, x + d.dx, y + d.dy, FOOD) == 1.0 then m'[d.food := 1.0] else m'
  }

  /** Visiting the whole table gives the sensor map. */
  lemma SensedAll(g: Tiles, x: int, y: int, k: nat)
    requires IsSquare(g, SIZE) && k == |DIRECTIONS|
    ensures SensedUpTo(g, x, y, k) == Senses(g, x, y)
  {
    var m := SensedUpTo(g, x, y, k);
    var e := Senses(g, x, y);
    SensedDirection(g, x, y, 0, k);
    SensedDirection(g, x, y, 1, k);
    SensedDirection(g, x, y, 2, k);
    SensedDirection(g, x, y, 3, k);
    assert DIRECTIONS[0] == Direction("fire_left", "food_left", -1, 0);
    assert DIRECTIONS[1] == Direction("fire_right", "food_right", 1, 0);
    assert DIRECTIONS[2] == Direction("fire_up", "food_up", 0, -1);
    assert DIRECTIONS[3] == Direction("fire_down", "food_down", 0, 1);
    assert m.Keys == e.Keys;
  }

  /** The sensor keys of different directions are different, and no fire key
      is a food key. */
  lemma KeysApart(i: nat, j: nat)
    requires i < |DIRECTIONS| && j < |DIRECTIONS|
    ensures DIRECTIONS[i].fire != DIRECTIONS[j].food
    ensures i != j ==> DIRECTIONS[i].fire != DIRECTIONS[j].fire && DIRECTIONS[i].food != DIRECTIONS[j].food
  {
  }

  /** After the first k directions, the two sensors of direction j hold what
      its neighbour shows if j was visited, and 0.0 otherwise: no other
      direction writes them. */
  lemma {:induction false} SensedDirection(g: Tiles, x: int, y: int, j: nat, k: nat)
    requires IsSquare(g, SIZE) && j < |DIRECTIONS| && k <= |DIRECTIONS|
    ensures var d := DIRECTIONS[j];
      && SensedUpTo(g, x, y, k)[d.fire] == (if j < k then Seen(g, x + d.dx, y + d.dy, FIRE) else 0.0)
      && SensedUpTo(g, x, y, k)[d.food] == (if j < k then Seen(g, x + d.dx, y + d.dy, FOOD) else 0.0)
  {
    var d := DIRECTIONS[j];
    if k == 0 {
      assert d.fire in SENSORS && d.food in SENSORS;
    } else {
      SensedDirection(g, x, y, j, k - 1);
      KeysApart(j, k - 1);
      KeysApart(k - 1, j);
    }
  }
}
