/** The character of main.py: a position on the 10-by-10 grid, a health level
    in [0, 100], a score and a brain. Each tick the brain is fed the neighbour
    sensors and the hunger level and picks one of four moves; the tile under the
    character then burns or feeds it, and health decays. */
module MainAgent {
  import opened Grid
  import opened Network
  import opened MainWorld

  /** The four move outputs, in the order `ai_move` compares them. */
  const MOVES: seq<string> := ["move_left", "move_right", "move_up", "move_down"]

  /** The starting value of `best_val`, below any sum the brain can produce in play. */
  const FLOOR: real := -999.0

  /** The state of the arg-max loop: the best move so far with its value, no
      move yet, or the KeyError raised when a move missing from the map is
      looked up. */
  datatype Choice = Best(action: string, value: real) | Nothing | KeyMissing(key: string)

  /** The running `best_val` of a choice. */
  function Bar(c: Choice): real
  {
    if c.Best? then c.value else FLOOR
  }

  /** The comparison loop of `ai_move` from move k on: `actions.get(name, 0)` is
      compared strictly with the best value so far, and when it wins,
      `actions[name]` is read, which fails for a missing name. */
  function Scan(acts: map<string, real>, k: nat, c: Choice): Choice
    requires k <= |MOVES| && !c.KeyMissing?
    decreases |MOVES| - k
  {
    if k == |MOVES| then c
    else
      var name := MOVES[k];
      var got := if name in acts then acts[name] else 0.0;
      if got > Bar(c) then
        if name in acts then Scan(acts, k + 1, Best(name, acts[name])) else KeyMissing(name)
      else Scan(acts, k + 1, c)
  }

  /** The move `ai_move` settles on for the brain's output map. */
  function Choose(acts: map<string, real>): Choice
  {
    Scan(acts, 0, Nothing)
  }

  /** Move j, present in the map, beats every move from k before it strictly. */
  predicate LeadsFrom(acts: map<string, real>, k: nat, j: nat)
    requires j < |MOVES|
  {
    MOVES[j] in acts && forall i :: k <= i < j ==> MOVES[i] in acts && acts[MOVES[i]] < acts[MOVES[j]]
  }

  lemma {:induction false} ScanPresent(acts: map<string, real>, k: nat, c: Choice)
    requires k <= |MOVES| && !c.KeyMissing?
    requires forall j :: k <= j < |MOVES| ==> MOVES[j] in acts
    ensures var r := Scan(acts, k, c);
      && !r.KeyMissing? && Bar(r) >= Bar(c)
      && (forall j :: k <= j < |MOVES| ==> acts[MOVES[j]] <= Bar(r))
      && (r == c || exists j :: k <= j < |MOVES| && r == Best(MOVES[j], acts[MOVES[j]])
                      && acts[MOVES[j]] > Bar(c) && LeadsFrom(acts, k, j))
    decreases |MOVES| - k
  {
    if k < |MOVES| {
      var name := MOVES[k];
      var r := Scan(acts, k, c);
      if acts[name] > Bar(c) {
        var b := Best(name, acts[name]);
        ScanPresent(acts, k + 1, b);
        if r == b {
          assert LeadsFrom(acts, k, k);
        } else {
          var j :| k + 1 <= j < |MOVES| && r == Best(MOVES[j], acts[MOVES[j]]) && acts[MOVES[j]] > Bar(b) && LeadsFrom(acts, k + 1, j);
          assert LeadsFrom(acts, k, j);
        }
      } else {
        ScanPresent(acts, k + 1, c);
        if r != c {
          var j :| k + 1 <= j < |MOVES| && r == Best(MOVES[j], acts[MOVES[j]]) && acts[MOVES[j]] > Bar(c) && LeadsFrom(acts, k + 1, j);
          assert LeadsFrom(acts, k, j);
        }
      }
    }
  }

  /** When all four moves are in the map, `ai_move` picks the first move holding
      the greatest value (the comparison is strict, so earlier moves win ties),
      provided that value beats -999; otherwise it picks nothing. */
  lemma ChooseFirstMax(acts: map<string, real>)
    requires forall j :: 0 <= j < |MOVES| ==> MOVES[j] in acts
    ensures var r := Choose(acts);
      && !r.KeyMissing?
      && (r.Best? ==> exists j :: 0 <= j < |MOVES| && r.action == MOVES[j] && r.value == acts[MOVES[j]]
                        && (forall i :: 0 <= i < |MOVES| ==> acts[MOVES[i]] <= r.value)
                        && LeadsFrom(acts, 0, j))
      && (r.Nothing? <==> forall i :: 0 <= i < |MOVES| ==> acts[MOVES[i]] <= FLOOR)
  {
    ScanPresent(acts, 0, Nothing);
  }

  /** Move j is the first missing one, every move from k up to it being present
      and negative. */
  predicate FailsAt(acts: map<string, real>, k: nat, j: nat)
    requires j < |MOVES|
  {
    MOVES[j] !in acts && forall i :: k <= i < j ==> MOVES[i] in acts && acts[MOVES[i]] < 0.0
  }

  lemma {:induction false} ScanMissing(acts: map<string, real>, k: nat, c: Choice)
    requires k <= |MOVES| && !c.KeyMissing?
    ensures Scan(acts, k, c).KeyMissing? <==> Bar(c) < 0.0 && exists j :: k <= j < |MOVES| && FailsAt(acts, k, j)
    ensures Scan(acts, k, c).KeyMissing? ==> Scan(acts, k, c).key !in acts
    decreases |MOVES| - k
  {
    if k < |MOVES| {
      var name := MOVES[k];
      if name !in acts {
        assert FailsAt(acts, k, k);
        if Bar(c) >= 0.0 {
          ScanMissing(acts, k + 1, c);
        }
      } else {
        var next := if acts[name] > Bar(c) then Best(name, acts[name]) else c;
        ScanMissing(acts, k + 1, next);
        forall j | k + 1 <= j < |MOVES| ensures FailsAt(acts, k, j) <==> acts[name] < 0.0 && FailsAt(acts, k + 1, j) {
        }
        assert !FailsAt(acts, k, k);
        if Scan(acts, k, c).KeyMissing? {
          var j :| k + 1 <= j < |MOVES| && FailsAt(acts, k + 1, j);
          assert FailsAt(acts, k, j);
        }
        if Bar(c) < 0.0 && exists j :: k <= j < |MOVES| && FailsAt(acts, k, j) {
          var j :| k <= j < |MOVES| && FailsAt(acts, k, j);
          assert FailsAt(acts, k + 1, j) && Bar(next) < 0.0;
        }
      }
    }
  }

  /** `ai_move` raises KeyError exactly when some move is missing from the map
      and every move before it is present with a negative value: the missing
      name then reads as 0 through `get`, beats the best so far and is looked
      up directly. */
  lemma ChooseKeyError(acts: map<string, real>)
    ensures Choose(acts).KeyMissing? <==> exists j :: 0 <= j < |MOVES| && FailsAt(acts, 0, j)
    ensures Choose(acts).KeyMissing? ==> Choose(acts).key !in acts
  {
    ScanMissing(acts, 0, Nothing);
  }

  /** The position after `ai_move` on a grid of the given size: the chosen move
      is taken only when its value is positive and the step stays on the grid;
      a blocked move leaves the position as it is. */
  function Step(x: int, y: int, size: int, c: Choice): (p: (int, int))
    ensures p == (x, y) || (c.Best? && c.value > 0.0)
    ensures (p.1 == y && (p.0 == x - 1 || p.0 == x || p.0 == x + 1))
         || (p.0 == x && (p.1 == y - 1 || p.1 == y + 1))
    ensures 0 <= x < size && 0 <= y < size ==> 0 <= p.0 < size && 0 <= p.1 < size
    ensures c.Best? && c.value > 0.0 && c.action == "move_right" && x < size - 1 ==> p == (x + 1, y)
    ensures c.Best? && c.value > 0.0 && c.action == "move_left" && x > 0 ==> p == (x - 1, y)
    ensures c.Best? && c.value > 0.0 && c.action == "move_up" && y > 0 ==> p == (x, y - 1)
    ensures c.Best? && c.value > 0.0 && c.action == "move_down" && y < size - 1 ==> p == (x, y + 1)
    ensures p != (x, y) ==>
      (c.Best? && c.value > 0.0
       && ((c.action == "move_left" && p == (x - 1, y)) || (c.action == "move_right" && p == (x + 1, y))
        || (c.action == "move_up" && p == (x, y - 1)) || (c.action == "move_down" && p == (x, y + 1))))
  {
    if c.Best? && c.value > 0.0 then
      if c.action == "move_left" && x > 0 then (x - 1, y)
      else if c.action == "move_right" && x < size - 1 then (x + 1, y)
      else if c.action == "move_up" && y > 0 then (x, y - 1)
      else if c.action == "move_down" && y < size - 1 then (x, y + 1)
      else (x, y)
    else (x, y)
  }

  /** The value of the hunger input: 0 at full health, 1 at none. */
  function HungerInput(h: real): real
  {
    1.0 - h / 100.0
  }

  /** The neuron values after the nine `set` calls of `ai_move`, in order:
      the eight sensor readings, then the hunger value. */
  function Feed(names: seq<string>, kinds: seq<Kind>, v: seq<real>, s: map<string, real>, h: real): (r: seq<real>)
    requires |kinds| == |names| == |v| && Distinct(names) && SENSORS <= s.Keys
    ensures |r| == |v|
  {
    var v1 := SetInput(names, kinds, v, "fire_left", s["fire_left"]);
    var v2 := SetInput(names, kinds, v1, "fire_right", s["fire_right"]);
    var v3 := SetInput(names, kinds, v2, "fire_up", s["fire_up"]);
    var v4 := SetInput(names, kinds, v3, "fire_down", s["fire_down"]);
    var v5 := SetInput(names, kinds, v4, "food_left", s["food_left"]);
    var v6 := SetInput(names, kinds, v5, "food_right", s["food_right"]);
    var v7 := SetInput(names, kinds, v6, "food_up", s["food_up"]);
    var v8 := SetInput(names, kinds, v7, "food_down", s["food_down"]);
    SetInput(names, kinds, v8, "hunger_sensor", HungerInput(h))
  }

  /** In a table of distinct names, a name is found at its own position. */
  lemma IndexOfDistinct(names: seq<string>, i: nat)
    requires i < |names| && Distinct(names)
    ensures IndexOf(names, names[i]) == i
  {
  }

  lemma BrainDistinct()
    ensures Distinct(BrainNames)
  {
  }

  /** In a table of distinct names, `set` on an input's own name writes that
      neuron only. */
  lemma SetAt(names: seq<string>, kinds: seq<Kind>, v: seq<real>, i: nat, x: real)
    requires |kinds| == |names| == |v| && Distinct(names) && i < |names| && kinds[i] == Input
    ensures SetInput(names, kinds, v, names[i], x) == v[i := x]
  {
    IndexOfDistinct(names, i);
  }

  /** The first nine neurons are the inputs that `ai_move` sets, in its order,
      as `build_brain` lays them out. */
  predicate SensorLayout(names: seq<string>, kinds: seq<Kind>)
  {
    |names| == |kinds| > HUNGER
    && names[FIRE_LEFT] == "fire_left" && names[FIRE_RIGHT] == "fire_right"
    && names[FIRE_UP] == "fire_up" && names[FIRE_DOWN] == "fire_down"
    && names[FOOD_LEFT] == "food_left" && names[FOOD_RIGHT] == "food_right"
    && names[FOOD_UP] == "food_up" && names[FOOD_DOWN] == "food_down"
    && names[HUNGER] == "hunger_sensor"
    && forall i :: 0 <= i <= HUNGER ==> kinds[i] == Input
  }

  /** With that layout, the nine `set` calls write the eight sensor readings and
      the hunger value into the first nine neurons and leave the rest as they
      were. */
  lemma FeedLayout(names: seq<string>, kinds: seq<Kind>, v: seq<real>, s: map<string, real>, h: real)
    requires |kinds| == |names| == |v| && Distinct(names) && SENSORS <= s.Keys && SensorLayout(names, kinds)
    ensures var r := Feed(names, kinds, v, s, h);
      && r[FIRE_LEFT] == s["fire_left"] && r[FIRE_RIGHT] == s["fire_right"]
      && r[FIRE_UP] == s["fire_up"] && r[FIRE_DOWN] == s["fire_down"]
      && r[FOOD_LEFT] == s["food_left"] && r[FOOD_RIGHT] == s["food_right"]
      && r[FOOD_UP] == s["food_up"] && r[FOOD_DOWN] == s["food_down"]
      && r[HUNGER] == HungerInput(h)
      && r[HUNGER + 1..] == v[HUNGER + 1..]
  {
    var v1 := SetInput(names, kinds, v, "fire_left", s["fire_left"]);
    SetAt(names, kinds, v, 0, s["fire_left"]);
    var v2 := SetInput(names, kinds, v1, "fire_right", s["fire_right"]);
    SetAt(names, kinds, v1, 1, s["fire_right"]);
    var v3 := SetInput(names, kinds, v2, "fire_up", s["fire_up"]);
    SetAt(names, kinds, v2, 2, s["fire_up"]);
    var v4 := SetInput(names, kinds, v3, "fire_down", s["fire_down"]);
    SetAt(names, kinds, v3, 3, s["fire_down"]);
    var v5 := SetInput(names, kinds, v4, "food_left", s["food_left"]);
    SetAt(names, kinds, v4, 4, s["food_left"]);
    var v6 := SetInput(names, kinds, v5, "food_right", s["food_right"]);
    SetAt(names, kinds, v5, 5, s["food_right"]);
    var v7 := SetInput(names, kinds, v6, "food_up", s["food_up"]);
    SetAt(names, kinds, v6, 6, s["food_up"]);
    var v8 := SetInput(names, kinds, v7, "food_down", s["food_down"]);
    SetAt(names, kinds, v7, 7, s["food_down"]);
    SetAt(names, kinds, v8, HUNGER, HungerInput(h));
  }

  /** A table laid out as `build_brain` lays it out: distinct names, the nine
      inputs `ai_move` sets first, then the four moves. */
  predicate BrainTable(names: seq<string>)
  {
    |names| == |BrainNames| && Distinct(names) && SensorLayout(names, BrainKinds)
    && names[MOVE_LEFT] == "move_left" && names[MOVE_RIGHT] == "move_right"
    && names[MOVE_UP] == "move_up" && names[MOVE_DOWN] == "move_down"
  }

  lemma BrainLayout()
    ensures BrainTable(BrainNames)
  {
    BrainDistinct();
  }

  /** The map `ai_move` compares for a brain with the `build_brain` table and
      wiring. */
  function Actions(names: seq<string>, v: seq<real>, s: map<string, real>, h: real): map<string, real>
    requires BrainTable(names) && |v| == |names| && SENSORS <= s.Keys
  {
    BrainLayered();
    Outputs(names, BrainKinds, Forward(BrainKinds, BrainEdges, Feed(names, BrainKinds, v, s, h)))
  }

  /** The map holds all four moves, each the linear sum of the sensors: -3 for
      fire on that side, +2 for fire on the opposite side, +1 for food on that
      side, and 0.2 times the hunger value 1 - h/100. */
  predicate Urges(acts: map<string, real>, s: map<string, real>, h: real)
    requires SENSORS <= s.Keys
  {
    && "move_left" in acts && "move_right" in acts && "move_up" in acts && "move_down" in acts
    && acts["move_left"] == -3.0 * s["fire_left"] + 2.0 * s["fire_right"] + s["food_left"] + 0.2 * HungerInput(h)
    && acts["move_right"] == -3.0 * s["fire_right"] + 2.0 * s["fire_left"] + s["food_right"] + 0.2 * HungerInput(h)
    && acts["move_up"] == -3.0 * s["fire_up"] + 2.0 * s["fire_down"] + s["food_up"] + 0.2 * HungerInput(h)
    && acts["move_down"] == -3.0 * s["fire_down"] + 2.0 * s["fire_up"] + s["food_down"] + 0.2 * HungerInput(h)
  }

  /** After a forward pass of the `build_brain` wiring over any values u, the
      returned map holds the four moves with their closed-form sums of u. */
  lemma OutputsClosedForm(names: seq<string>, u: seq<real>)
    requires BrainTable(names) && |u| == |names|
    ensures Wired(|u|, BrainEdges)
    ensures var acts := Outputs(names, BrainKinds, Forward(BrainKinds, BrainEdges, u));
      && "move_left" in acts && "move_right" in acts && "move_up" in acts && "move_down" in acts
      && acts["move_left"] == -3.0 * u[FIRE_LEFT] + 2.0 * u[FIRE_RIGHT] + u[FOOD_LEFT] + 0.2 * u[HUNGER]
      && acts["move_right"] == -3.0 * u[FIRE_RIGHT] + 2.0 * u[FIRE_LEFT] + u[FOOD_RIGHT] + 0.2 * u[HUNGER]
      && acts["move_up"] == -3.0 * u[FIRE_UP] + 2.0 * u[FIRE_DOWN] + u[FOOD_UP] + 0.2 * u[HUNGER]
      && acts["move_down"] == -3.0 * u[FIRE_DOWN] + 2.0 * u[FIRE_UP] + u[FOOD_DOWN] + 0.2 * u[HUNGER]
  {
    BrainClosedForm(u);
    var w := Forward(BrainKinds, BrainEdges, u);
    OutputsExactly(names, BrainKinds, w, |names|);
    assert BrainKinds[MOVE_LEFT] == Output && BrainKinds[MOVE_RIGHT] == Output;
    assert BrainKinds[MOVE_UP] == Output && BrainKinds[MOVE_DOWN] == Output;
  }

  /** With the `build_brain` table and wiring, the map `ai_move` compares holds
      all four moves with their closed-form sums of the sensors and hunger. */
  lemma BrainActions(names: seq<string>, v: seq<real>, s: map<string, real>, h: real)
    requires BrainTable(names) && |v| == |names| && SENSORS <= s.Keys
    ensures Urges(Actions(names, v, s, h), s, h)
  {
    var u := Feed(names, BrainKinds, v, s, h);
    FeedLayout(names, BrainKinds, v, s, h);
    OutputsClosedForm(names, u);
  }

  /** Fire on the left only, no food and full health: move_right scores 2
      against -3 for move_left and 0 for up and down, and wins. */
  lemma FleeChoice(acts: map<string, real>, s: map<string, real>)
    requires SENSORS <= s.Keys && Urges(acts, s, 100.0)
    requires s["fire_left"] == 1.0 && s["fire_right"] == 0.0 && s["fire_up"] == 0.0 && s["fire_down"] == 0.0
    requires s["food_left"] == 0.0 && s["food_right"] == 0.0 && s["food_up"] == 0.0 && s["food_down"] == 0.0
    ensures Choose(acts) == Best("move_right", 2.0)
  {
    assert acts["move_left"] == -3.0 && acts["move_right"] == 2.0;
    assert acts["move_up"] == 0.0 && acts["move_down"] == 0.0;
  }

  /** Food on the left only and no fire, at any health in [0, 100]: move_left
      scores 1 more than the other three, which share the hunger bias. */
  lemma SeekChoice(acts: map<string, real>, s: map<string, real>, h: real)
    requires SENSORS <= s.Keys && Urges(acts, s, h) && 0.0 <= h <= 100.0
    requires s["fire_left"] == 0.0 && s["fire_right"] == 0.0 && s["fire_up"] == 0.0 && s["fire_down"] == 0.0
    requires s["food_left"] == 1.0 && s["food_right"] == 0.0 && s["food_up"] == 0.0 && s["food_down"] == 0.0
    ensures Choose(acts) == Best("move_left", 1.0 + 0.2 * HungerInput(h))
  {
    var b := 0.2 * HungerInput(h);
    assert acts["move_left"] == 1.0 + b && acts["move_right"] == b;
    assert acts["move_up"] == b && acts["move_down"] == b;
  }

  /** With fire on the left only, no food in sight and full health, the
      `build_brain` network makes the character step right unless it is at the
      right edge. */
  lemma FleeFire(names: seq<string>, v: seq<real>, s: map<string, real>, x: int, y: int)
    requires BrainTable(names) && |v| == |names| && SENSORS <= s.Keys
    requires s["fire_left"] == 1.0 && s["fire_right"] == 0.0 && s["fire_up"] == 0.0 && s["fire_down"] == 0.0
    requires s["food_left"] == 0.0 && s["food_right"] == 0.0 && s["food_up"] == 0.0 && s["food_down"] == 0.0
    ensures var c := Choose(Actions(names, v, s, 100.0));
      && c == Best("move_right", 2.0)
      && Step(x, y, SIZE, c) == if x < SIZE - 1 then (x + 1, y) else (x, y)
  {
    BrainActions(names, v, s, 100.0);
    FleeChoice(Actions(names, v, s, 100.0), s);
  }

  /** With food on the left only and no fire in sight, at any health in
      [0, 100], the `build_brain` network picks move_left: the hunger bias is
      the same for all four moves, so the food link decides. */
  lemma SeekFood(names: seq<string>, v: seq<real>, s: map<string, real>, h: real, x: int, y: int)
    requires BrainTable(names) && |v| == |names| && SENSORS <= s.Keys && 0.0 <= h <= 100.0
    requires s["fire_left"] == 0.0 && s["fire_right"] == 0.0 && s["fire_up"] == 0.0 && s["fire_down"] == 0.0
    requires s["food_left"] == 1.0 && s["food_right"] == 0.0 && s["food_up"] == 0.0 && s["food_down"] == 0.0
    ensures var c := Choose(Actions(names, v, s, h));
      && c == Best("move_left", 1.0 + 0.2 * HungerInput(h))
      && Step(x, y, SIZE, c) == if x > 0 then (x - 1, y) else (x, y)
  {
    BrainActions(names, v, s, h);
    SeekChoice(Actions(names, v, s, h), s, h);
  }

  /** A map holding all four moves never makes `ai_move` raise KeyError. */
  lemma UrgesNeverKeyError(acts: map<string, real>, s: map<string, real>, h: real)
    requires SENSORS <= s.Keys && Urges(acts, s, h)
    ensures !Choose(acts).KeyMissing?
  {
    assert forall j :: 0 <= j < |MOVES| ==> MOVES[j] in acts;
    ChooseFirstMax(acts);
  }

  /** The `build_brain` network never makes `ai_move` raise KeyError. */
  lemma BrainNeverKeyError(names: seq<string>, v: seq<real>, s: map<string, real>, h: real)
    requires BrainTable(names) && |v| == |names| && SENSORS <= s.Keys
    ensures !Choose(Actions(names, v, s, h)).KeyMissing?
  {
    BrainActions(names, v, s, h);
    UrgesNeverKeyError(Actions(names, v, s, h), s, h);
  }

  /** max(0, h - 20): a fire tile burns 20 health, not below 0. */
  function Burn(h: real): real
  {
    if h - 20.0 > 0.0 then h - 20.0 else 0.0
  }

  /** min(100, h + 30): a food tile restores 30 health, not above 100. */
  function Nourish(h: real): real
  {
    if h + 30.0 < 100.0 then h + 30.0 else 100.0
  }

  /** max(0, h - 0.2): the decay of one `update`. */
  function Decay(h: real): real
  {
    if h - 0.2 > 0.0 then h - 0.2 else 0.0
  }

  /** Health after `check_tile` on a tile: fire burns, food feeds, anything else
      leaves it. Health in [0, 100] stays there; fire never raises it and food
      never lowers it. */
  function TileHealth(h: real, t: int): (r: real)
    ensures 0.0 <= h <= 100.0 ==> 0.0 <= r <= 100.0
    ensures t == FIRE && 0.0 <= h ==> r <= h && (h >= 20.0 ==> r == h - 20.0)
    ensures t == FOOD && h <= 100.0 ==> h <= r && (h <= 70.0 ==> r == h + 30.0)
    ensures t != FIRE && t != FOOD ==> r == h
  {
    if t == FIRE then Burn(h) else if t == FOOD then Nourish(h) else h
  }

  /** Score change of `check_tile` on a tile: -10 on fire, +20 on food. */
  function TileScore(t: int): int
  {
    if t == FIRE then -10 else if t == FOOD then 20 else 0
  }

  /** Health after a run of ticks, each one `check_tile` on the listed tile
      followed by `update`. */
  function Life(h: real, tiles: seq<int>): real
  {
    if tiles == [] then h else Decay(TileHealth(Life(h, tiles[..|tiles| - 1]), tiles[|tiles| - 1]))
  }

  /** Total score change over a run of ticks. */
  function Score(tiles: seq<int>): int
  {
    if tiles == [] then 0 else Score(tiles[..|tiles| - 1]) + TileScore(tiles[|tiles| - 1])
  }

  /** However the ticks go, health that starts in [0, 100] stays there. */
  lemma {:induction false} LifeBounded(h: real, tiles: seq<int>)
    requires 0.0 <= h <= 100.0
    ensures 0.0 <= Life(h, tiles) <= 100.0
  {
    if tiles != [] {
      LifeBounded(h, tiles[..|tiles| - 1]);
    }
  }

  /** The score moves by 20 per food tile met and -10 per fire tile met. */
  lemma {:induction false} ScoreCounts(tiles: seq<int>)
    ensures Score(tiles) == 20 * (multiset(tiles)[FOOD] as int) - 10 * (multiset(tiles)[FIRE] as int)
  {
    if tiles != [] {
      var init := tiles[..|tiles| - 1];
      assert tiles == init + [tiles[|tiles| - 1]];
      ScoreCounts(init);
    }
  }

  class Character {
    var x: int
    var y: int
    var b: Brain
    var h: real
    var score: int

    /** On the grid, with health in [0, 100] and a well-formed brain. */
    predicate Valid()
      reads this, b
    {
      b.Valid() && 0 <= x < SIZE && 0 <= y < SIZE && 0.0 <= h <= 100.0
    }

    /** A new character has full health and no score. */
    constructor (x: int, y: int, brain: Brain)
      ensures this.x == x && this.y == y && b == brain && h == 100.0 && score == 0
      ensures 0 <= x < SIZE && 0 <= y < SIZE && brain.Valid() ==> Valid()
    {
      this.x, this.y, b := x, y, brain;
      h, score := 100.0, 0;
    }

    /** `ai_move`: feed the neighbour sensors and the hunger value into the
        brain, run it, pick the move and take it. Returns false where the source
        raises KeyError; the position is then left as it is. */
    method AiMove(world: World) returns (ok: bool)
      requires Valid() && world.Valid()
      modifies this, b.vals
      ensures Valid() && b == old(b) && h == old(h) && score == old(score)
      ensures var v := Feed(b.names, b.kinds, old(b.vals[..]), Senses(world.g, old(x), old(y)), old(h));
        var c := Choose(Outputs(b.names, b.kinds, Forward(b.kinds, b.edges, v)));
        && b.vals[..] == Forward(b.kinds, b.edges, v)
        && ok == !c.KeyMissing?
        && (x, y) == Step(old(x), old(y), world.s, c)
    {
      Perceive(world);
      var actions := b.Run();
      var c := PickAction(actions);
      if c.KeyMissing? {
        return false;
      }
      ok := true;
      Go(c, world.s);
    }

    /** The last part of `ai_move`: take the chosen move if its value is
        positive and the step stays on the grid. */
    method Go(c: Choice, size: int)
      modifies this
      ensures (x, y) == Step(old(x), old(y), size, c)
      ensures b == old(b) && h == old(h) && score == old(score)
    {
      if c.Best? && c.value > 0.0 {
        if c.action == "move_left" && x > 0 {
          x := x - 1;
        } else if c.action == "move_right" && x < size - 1 {
          x := x + 1;
        } else if c.action == "move_up" && y > 0 {
          y := y - 1;
        } else if c.action == "move_down" && y < size - 1 {
          y := y + 1;
        }
      }
    }

    /** The first half of `ai_move`: read the neighbour sensors and set the nine
        brain inputs. */
    method Perceive(world: World)
      requires b.Valid() && world.Valid()
      modifies b.vals
      ensures b.vals[..] == Feed(b.names, b.kinds, old(b.vals[..]), Senses(world.g, x, y), h)
    {
      var sensors := world.SenseNearby(x, y);
      b.Set("fire_left", sensors["fire_left"]);
      b.Set("fire_right", sensors["fire_right"]);
      b.Set("fire_up", sensors["fire_up"]);
      b.Set("fire_down", sensors["fire_down"]);
      b.Set("food_left", sensors["food_left"]);
      b.Set("food_right", sensors["food_right"]);
      b.Set("food_up", sensors["food_up"]);
      b.Set("food_down", sensors["food_down"]);
      b.Set("hunger_sensor", HungerInput(h));
    }

    /** `check_tile`: fire costs 20 health (not below 0) and 10 points; food
        gives 30 health (not above 100) and 20 points and is cleared from the
        grid; any other tile changes nothing. */
    method CheckTile(world: World)
      requires Valid() && world.Valid()
      modifies this, world
      ensures Valid() && x == old(x) && y == old(y) && b == old(b) && world.Valid()
      ensures var t := old(world.g[y][x]);
        && h == TileHealth(old(h), t) && score == old(score) + TileScore(t)
        && world.g == if t == FOOD then Put(old(world.g), Cell(x, y), EMPTY) else old(world.g)
    {
      if world.g[y][x] == FIRE {
        h := Burn(h);
        score := score - 10;
      } else if world.g[y][x] == FOOD {
        h := Nourish(h);
        world.g := world.g[y := world.g[y][x := EMPTY]];
        score := score + 20;
      }
    }

    /** `update`: health decays by 0.2, not below 0. */
    method Update()
      requires Valid()
      modifies this
      ensures Valid() && h == Decay(old(h))
      ensures x == old(x) && y == old(y) && b == old(b) && score == old(score)
    {
      h := if h - 0.2 > 0.0 then h - 0.2 else 0.0;
    }
  }

  /** The arg-max loop of `ai_move`, with `best_action` and `best_val` kept
      together as a choice. */
  method PickAction(actions: map<string, real>) returns (c: Choice)
    ensures c == Choose(actions)
  {
    c := Nothing;
    var bestVal := FLOOR;
    var k := 0;
    while k < |MOVES|
      invariant 0 <= k <= |MOVES| && !c.KeyMissing? && bestVal == Bar(c)
      invariant Scan(actions, k, c) == Choose(actions)
    {
      var name := MOVES[k];
      var got := if name in actions then actions[name] else 0.0;
      if got > bestVal {
        if name !in actions {
          return KeyMissing(name);
        }
        bestVal := actions[name];
        c := Best(name, bestVal);
      }
      k := k + 1;
    }
  }
}
