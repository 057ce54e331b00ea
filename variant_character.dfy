/** The standalone character of character.py: a position and a hunger level
    that grows each tick, moved by the truthy move outputs of its brain,
    clamped to the 10-by-10 area, and fed by the food under it. */
module VariantCharacter {
  import opened Grid
  import opened VariantWorld

  /** The highest column and row `update` clamps to, whatever the world's size. */
  const EDGE: int := 9

  /** Hunger grows by 0.1 each tick and is capped at 100. */
  function Hungrier(h: real): (r: real)
    ensures r <= 100.0
    ensures h <= 99.9 ==> r == h + 0.1
    ensures 99.9 < h ==> r == 100.0
  {
    if h + 0.1 < 100.0 then h + 0.1 else 100.0
  }

  /** The hunger sensor `update` writes: 1 above 30, else 0. */
  function HungerBit(h: real): (b: int)
    ensures b == 1 <==> h > 30.0
    ensures b == 0 <==> h <= 30.0
  {
    if h > 30.0 then 1 else 0
  }

  /** `outputs.get(key, 0)` is truthy: the key is present with a nonzero value. */
  predicate Truthy(outputs: map<string, real>, key: string)
  {
    key in outputs && outputs[key] != 0.0
  }

  /** max(0, min(9, v)). */
  function Clamp(v: int): (r: int)
    ensures 0 <= r <= EDGE
    ensures 0 <= v <= EDGE ==> r == v
    ensures v < 0 ==> r == 0
    ensures EDGE < v ==> r == EDGE
  {
    if v < 0 then 0 else if v > EDGE then EDGE else v
  }

  /** One coordinate after the two opposite moves that act on it. */
  function Shift(v: int, back: bool, forth: bool): int
  {
    Clamp(v - (if back then 1 else 0) + (if forth then 1 else 0))
  }

  /** The position after the four moves and the clamp of `update`. */
  function Moved(x: int, y: int, outputs: map<string, real>): (int, int)
  {
    (Shift(x, Truthy(outputs, "move_left"), Truthy(outputs, "move_right")),
     Shift(y, Truthy(outputs, "move_up"), Truthy(outputs, "move_down")))
  }

  /** The moves land in the 10-by-10 area; from inside it each coordinate changes
      by at most one; opposite moves cancel; a lone move steps one cell toward
      its side unless the edge stops it; no truthy move, no change. */
  lemma MovedSteps(x: int, y: int, outputs: map<string, real>)
    requires 0 <= x <= EDGE && 0 <= y <= EDGE
    ensures var (nx, ny) := Moved(x, y, outputs);
      && 0 <= nx <= EDGE && 0 <= ny <= EDGE
      && -1 <= nx - x <= 1 && -1 <= ny - y <= 1
      && (Truthy(outputs, "move_left") == Truthy(outputs, "move_right") ==> nx == x)
      && (Truthy(outputs, "move_up") == Truthy(outputs, "move_down") ==> ny == y)
      && (Truthy(outputs, "move_left") && !Truthy(outputs, "move_right") ==> nx == if x > 0 then x - 1 else 0)
      && (Truthy(outputs, "move_right") && !Truthy(outputs, "move_left") ==> nx == if x < EDGE then x + 1 else EDGE)
      && (Truthy(outputs, "move_up") && !Truthy(outputs, "move_down") ==> ny == if y > 0 then y - 1 else 0)
      && (Truthy(outputs, "move_down") && !Truthy(outputs, "move_up") ==> ny == if y < EDGE then y + 1 else EDGE)
  {
  }

  /** Hunger after the two `eat_food` calls of `update`, as written: it is reset
      only when the second call eats. */
  function Settle(h: real, g: Tiles, c: Cell): real
    requires InGrid(g, c)
  {
    if Eat(Eat(g, c).1, c).0 then 0.0 else h
  }

  /** As written, `update` never resets hunger: the first call has already
      removed any food under the character, so the second never eats, even on a
      food tile. */
  lemma SettleNeverResets(h: real, g: Tiles, c: Cell)
    requires InGrid(g, c)
    ensures Settle(h, g, c) == h
    ensures g[c.y][c.x] == FOOD ==> Eat(g, c).0 && !Eat(Eat(g, c).1, c).0
  {
    EatEffect(g, c);
  }

  /** Consequently hunger, which starts at 50, stays above 30 and at most 100
      forever, and the hunger sensor is always 1. */
  lemma HungerStaysHigh(h: real, g: Tiles, c: Cell)
    requires InGrid(g, c) && 30.0 < h <= 100.0
    ensures var h' := Settle(Hungrier(h), g, c);
      30.0 < h' <= 100.0 && h <= h' && HungerBit(h') == 1
  {
    SettleNeverResets(Hungrier(h), g, c);
  }

  /** Hunger after one meal attempt, as intended: reset to 0 when food was eaten. */
  function Refresh(h: real, g: Tiles, c: Cell): real
    requires InGrid(g, c)
  {
    if Eat(g, c).0 then 0.0 else h
  }

  /** With a single call, hunger resets exactly when the character stands on
      food, and the food is gone afterwards. */
  lemma RefreshResets(h: real, g: Tiles, c: Cell)
    requires InGrid(g, c) && h != 0.0
    ensures Refresh(h, g, c) == 0.0 <==> g[c.y][c.x] == FOOD
    ensures Refresh(h, g, c) == h <==> g[c.y][c.x] != FOOD
    ensures g[c.y][c.x] == FOOD ==> Count(Eat(g, c).1, FOOD) + 1 == Count(g, FOOD)
  {
    EatEffect(g, c);
  }

  class Character {
    var x: int
    var y: int
    var hunger: real

    /** `Character(x, y, brain)`: hunger starts at 50. */
    constructor (x: int, y: int)
      ensures this.x == x && this.y == y && hunger == 50.0
    {
      this.x, this.y := x, y;
      hunger := 50.0;
    }

    /** `update`, as written: hunger grows, the hunger sensor is written into the
        sensor map (returned), the brain's outputs move and clamp the character,
        and `eat_food` is called twice at the new position. */
    method Update(sensors: map<string, int>, outputs: map<string, real>, world: World) returns (written: map<string, int>)
      requires world.Valid() && Moved(x, y, outputs).0 < world.size && Moved(x, y, outputs).1 < world.size
      modifies this, world
      ensures (x, y) == Moved(old(x), old(y), outputs)
      ensures written == sensors["hunger_sensor" := HungerBit(Hungrier(old(hunger)))]
      ensures world.Valid() && world.grid == Eat(old(world.grid), Cell(x, y)).1
      ensures hunger == Settle(Hungrier(old(hunger)), old(world.grid), Cell(x, y))
    {
      hunger := hunger + 0.1;
      if hunger > 100.0 {
        hunger := 100.0;
      }
      written := sensors["hunger_sensor" := if hunger > 30.0 then 1 else 0];
      Move(outputs);
      var first := world.EatFood(x, y);
      var second := world.EatFood(x, y);
      hunger := if second then 0.0 else hunger;
    }

    /** `update` with the evident intent: one meal attempt, and hunger reset to 0
        when it eats. */
    method UpdateIntended(sensors: map<string, int>, outputs: map<string, real>, world: World) returns (written: map<string, int>)
      requires world.Valid() && Moved(x, y, outputs).0 < world.size && Moved(x, y, outputs).1 < world.size
      modifies this, world
      ensures (x, y) == Moved(old(x), old(y), outputs)
      ensures written == sensors["hunger_sensor" := HungerBit(Hungrier(old(hunger)))]
      ensures world.Valid() && world.grid == Eat(old(world.grid), Cell(x, y)).1
      ensures hunger == Refresh(Hungrier(old(hunger)), old(world.grid), Cell(x, y))
    {
      hunger := hunger + 0.1;
      if hunger > 100.0 {
        hunger := 100.0;
      }
      written := sensors["hunger_sensor" := if hunger > 30.0 then 1 else 0];
      Move(outputs);
      var ate := world.EatFood(x, y);
      if ate {
        hunger := 0.0;
      }
    }

    /** The four move checks and the clamp of `update`. */
    method Move(outputs: map<string, real>)
      modifies this
      ensures (x, y) == Moved(old(x), old(y), outputs) && hunger == old(hunger)
    {
      if Truthy(outputs, "move_left") {
        x := x - 1;
      }
      if Truthy(outputs, "move_right") {
        x := x + 1;
      }
      if Truthy(outputs, "move_up") {
        y := y - 1;
      }
      if Truthy(outputs, "move_down") {
        y := y + 1;
      }
      x, y := Clamp(x), Clamp(y);
    }
  }
}
