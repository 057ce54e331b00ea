# NeuroVerse core in Dafny

NeuroVerse is a small grid game. A character moves over a 10-by-10 grid of
empty, fire and food tiles, steered by a hand-wired neural network. This project
models the game's core and proves properties about that model. It covers:

- **The network** (`network.dfy`, module `Network`). This is the `Neuron` and
  `Brain` classes of `main.py`, together with `build_brain`.
  - A brain is a name-keyed table of neurons in insertion order. Each neuron
    has a kind (input, hidden or output) and a value, kept in an array.
  - Links are kept as a list of weighted edges in creation order.
  - `run` resets the non-input neurons, makes one accumulation pass in table
    order, and returns the output values by name. The activation step
    `fire` is the identity.
- **The world** of `main.py` (`main_world.dfy`, module `MainWorld`).
  - `spawn_objects` places three fires and then four foods by retrying, never
    on the start cell (5, 5).
  - `sense_nearby` reports the four neighbouring cells.
- **The character** of `main.py` (`main_agent.dfy`, module `MainAgent`).
  - `ai_move` has three parts: the nine `set` calls, `run`, and the
    strict arg-max over the four moves from -999. It then takes the chosen
    move only when its value is positive and the step stays on the grid.
  - `check_tile` applies fire (-20 health, -10 points) and food (+30 health,
    +20 points, tile cleared).
  - `update` decays health by 0.2.
- **The standalone world** of `world.py` (`variant_world.dfy`, module
  `VariantWorld`).
  - Three fires are written unconditionally, then three foods are placed by
    retrying.
  - The 3x3 neighbourhood sensor.
  - `eat_food`.
- **The standalone character** of `character.py` (`variant_character.dfy`,
  module `VariantCharacter`).
  - Hunger grows by 0.1 per tick, capped at 100.
  - The hunger sensor is written into the sensor map.
  - Truthy move outputs move the character, and the position is clamped to
    0..9.
  - Two `eat_food` calls.
- **The shared grid** (`grid.dfy`, module `Grid`).
  - Tile codes (0 empty, 1 fire, 2 food).
  - Tile counts.
  - The two placement disciplines, both driven by a stream of random draws:
    retry until a free cell comes up (`Scatter`) and write unconditionally
    (`Paint`).

Randomness is a caller-supplied sequence of cells. Each cell is one
`(randint, randint)` pair, in the order the source draws them.

The closed form of the `build_brain` network is proved. With that wiring,
each move scores:

- -3 for fire on its side;
- +2 for fire on the opposite side;
- +1 for food on its side;
- 0.2 × (1 - h/100).

From that closed form, the scenario lemmas show that the character runs from
fire and walks to food, and that `ai_move` never raises KeyError with this
network.

## Model

| member | source | states |
|---|---|---|
| Grid.Blank | NeuroVerse/src/main.py:70 | a cleared grid is size by size and every cell is EMPTY |
| Grid.Put | NeuroVerse/src/main.py:76 | writing one cell changes that cell and no other, and keeps the shape |
| Grid.CountPut | NeuroVerse/src/main.py:76 | overwriting one cell moves exactly one cell between the tile counts |
| Grid.CountBlank | NeuroVerse/src/main.py:70 | a cleared grid counts size² EMPTY cells and no other tile |
| Grid.Scatter | NeuroVerse/src/main.py:72-77 | retry placement places at most `need` tiles, and fewer only once the draws are used up |
| Grid.ScatterCounts | NeuroVerse/src/main.py:72-84 | retry placement raises the tile's count by exactly the number placed, lowers EMPTY by the same, and leaves every other tile's count alone |
| Grid.ScatterCells | NeuroVerse/src/main.py:75 | retry placement changes only cells that were EMPTY and not reserved, and turns them into the tile |
| Grid.ScatterWellFormed | NeuroVerse/src/main.py:72-84 | retry placement of fire or food keeps every cell a valid tile code |
| Grid.PaintEffect | NeuroVerse/src/world.py:10-13 | every drawn cell ends with the tile; undrawn cells keep theirs; the tile's count grows by at most the number of draws |
| Grid.PaintWellFormed | NeuroVerse/src/world.py:10-13 | unconditional placement of fire or food keeps every cell a valid tile code |
| Network.IndexOf | NeuroVerse/src/main.py:37 | the position of a name in the table, or -1 exactly when the name is absent |
| Network.SetInput | NeuroVerse/src/main.py:35-38 | `set` writes only the input neuron carrying that name; any other name or kind changes nothing |
| Network.Detach | NeuroVerse/src/main.py:31-33 | replacing a neuron drops every edge from or into it and keeps all the others |
| Network.DetachCounts | NeuroVerse/src/main.py:31-33 | replacing a neuron removes every copy of its edges and keeps every other edge exactly as often as it was linked, duplicates included |
| Network.DetachSnoc | NeuroVerse/src/main.py:31-33 | the surviving edges keep their link order: an edge added last survives last or not at all |
| Network.Brain.constructor | NeuroVerse/src/main.py:28-29 | a new brain has no neurons and no links |
| Network.Brain.Add | NeuroVerse/src/main.py:31-33 | a new name is appended with value 0; an existing name is replaced in place by a fresh neuron whose old edges are gone both ways |
| Network.Brain.Connect | NeuroVerse/src/main.py:16-18 | `link` appends one weighted edge after all earlier ones |
| Network.Brain.Set | NeuroVerse/src/main.py:35-38 | the value array after `set` is `SetInput` of the old one |
| Network.Brain.Run | NeuroVerse/src/main.py:40-58 | the array after `run` is one forward pass of the old array, and the result maps each output neuron's name to its value |
| Network.Brain.Reset | NeuroVerse/src/main.py:42-45 | every non-input neuron is reset to 0 and inputs keep their values |
| Network.Brain.Spread | NeuroVerse/src/main.py:48-50 | one neuron sends its current value times the weight along its edges, in order |
| Network.OutputsExactly | NeuroVerse/src/main.py:58 | the returned map's keys are exactly the output neurons' names, each with its own neuron's value |
| Network.ForwardKeepsInputs | NeuroVerse/src/main.py:40-50 | when no edge ends at an input, a forward pass leaves every input's value unchanged |
| Network.ForwardReadsOnlyInputs | NeuroVerse/src/main.py:42-50 | a forward pass depends only on the input neurons' values |
| Network.RunTwice | NeuroVerse/src/main.py:40-58 | running twice in a row gives the same values as running once, when no edge ends at an input |
| Network.SendSums | NeuroVerse/src/main.py:48-50 | a sending neuron that does not feed itself adds its weighted value to each target |
| Network.SendSilent | NeuroVerse/src/main.py:48-50 | a neuron with no edges of its own sends nothing |
| Network.PassSums | NeuroVerse/src/main.py:48-50 | in a two-layer net, after the first i neurons have sent, each neuron holds its start value plus what those senders delivered |
| Network.IncomingByEdge | NeuroVerse/src/main.py:48-50 | summing the incoming signal sender by sender equals summing it edge by edge |
| Network.LayeredForward | NeuroVerse/src/main.py:40-58 | for a two-layer net a forward pass keeps the inputs and gives every other neuron the raw weighted sum over its incoming edges |
| Network.BuildBrain | NeuroVerse/src/main.py:174-228 | `build_brain` yields the 13-neuron table (nine inputs, then four outputs), all values 0, and the sixteen links in order |
| Network.Wire | NeuroVerse/src/main.py:205-226 | the sixteen `link` calls produce exactly the `build_brain` edge list |
| Network.BrainLayered | NeuroVerse/src/main.py:205-226 | every `build_brain` link runs from an input to an output |
| Network.BrainClosedForm | NeuroVerse/src/main.py:205-226 | a forward pass of the `build_brain` net gives each move -3·fire on its side + 2·fire opposite + food on its side + 0.2·hunger, and keeps the inputs |
| MainWorld.SpawnCounts | NeuroVerse/src/main.py:68-84 | after `spawn_objects` each counter equals the grid's count of its tile (at most 3 fires and 4 foods); food starts only after 3 fires; the rest is EMPTY; the start cell is EMPTY; either loop stops short only once the draws run out |
| MainWorld.World.constructor | NeuroVerse/src/main.py:62-66 | a new world is 10 by 10, well formed, and holds the grid `spawn_objects` produces |
| MainWorld.World.SpawnObjects | NeuroVerse/src/main.py:68-84 | the grid and the two counters are what the two retry loops yield on the draws |
| MainWorld.World.Place | NeuroVerse/src/main.py:72-77 | one counter loop ends in the state retry placement predicts: the grid, the counter and the first unused draw |
| MainWorld.Seen | NeuroVerse/src/main.py:103-107 | a neighbour reads 1.0 exactly when it is on the grid and holds the tile, else 0.0 |
| MainWorld.World.SenseNearby | NeuroVerse/src/main.py:86-109 | the sensor map holds all eight keys: left is x-1, right x+1, up y-1, down y+1, each 1.0 exactly when the neighbour shows that tile |
| MainWorld.SensedAll | NeuroVerse/src/main.py:101-107 | the four-direction loop ends with the same map as the eight-key reading |
| MainAgent.ScanPresent | NeuroVerse/src/main.py:142-145 | with all moves present, the loop's result beats or ties every move, and it is either its start or a move that beats all earlier moves strictly |
| MainAgent.ChooseFirstMax | NeuroVerse/src/main.py:139-145 | with all four moves present, `ai_move` picks the first move of greatest value, or nothing exactly when every value is at most -999 |
| MainAgent.ScanMissing | NeuroVerse/src/main.py:142-145 | the loop raises KeyError exactly when a missing move comes after only present, negative moves |
| MainAgent.ChooseKeyError | NeuroVerse/src/main.py:142-145 | `ai_move` raises KeyError exactly when some move is absent and every earlier move is present with a negative value; the key raised is absent |
| MainAgent.PickAction | NeuroVerse/src/main.py:139-145 | the arg-max loop returns the choice `Choose` specifies, KeyError included |
| MainAgent.Step | NeuroVerse/src/main.py:147-156 | the position changes only for a positive best value, and then by one cell in the chosen direction; a blocked move keeps the position, with no fallback to another move; it never leaves the grid |
| MainAgent.Character.Go | NeuroVerse/src/main.py:147-156 | the if/elif chain moves the character as `Step` says |
| MainAgent.Feed | NeuroVerse/src/main.py:125-133 | the nine `set` calls keep the value table's length |
| MainAgent.SetAt | NeuroVerse/src/main.py:35-38 | with distinct names, `set` on an input's own name writes that neuron only |
| MainAgent.FeedLayout | NeuroVerse/src/main.py:125-133 | with the `build_brain` layout, the nine `set` calls write the eight sensors and 1 - h/100 into the first nine neurons and leave the rest alone |
| MainAgent.BrainLayout | NeuroVerse/src/main.py:199-202 | the `build_brain` table has distinct names, the nine inputs first and the four moves at positions 9 to 12 |
| MainAgent.OutputsClosedForm | NeuroVerse/src/main.py:205-226 | after a forward pass of the `build_brain` net, the returned map holds all four moves with their closed-form sums |
| MainAgent.BrainActions | NeuroVerse/src/main.py:120-136 | the map `ai_move` compares holds all four moves, each -3·fire on its side + 2·fire opposite + food on its side + 0.2·(1 - h/100) |
| MainAgent.FleeChoice | NeuroVerse/src/main.py:139-145 | with fire on the left only, no food and full health, the arg-max picks move_right with value 2 |
| MainAgent.SeekChoice | NeuroVerse/src/main.py:139-145 | with food on the left only and no fire, the arg-max picks move_left with value 1 + 0.2·(1 - h/100) |
| MainAgent.FleeFire | NeuroVerse/src/main.py:120-156 | with fire on the left only and full health, the `build_brain` character steps right unless it is at the right edge |
| MainAgent.SeekFood | NeuroVerse/src/main.py:120-156 | with food on the left only and no fire, the `build_brain` character steps left, at any health, unless it is at the left edge |
| MainAgent.UrgesNeverKeyError | NeuroVerse/src/main.py:142-145 | a map holding all four moves never leads to KeyError |
| MainAgent.BrainNeverKeyError | NeuroVerse/src/main.py:120-145 | with the `build_brain` network `ai_move` never raises KeyError |
| MainAgent.TileHealth | NeuroVerse/src/main.py:158-166 | fire costs 20 health, never below 0; food gives 30, never above 100; other tiles leave health as it is; health in [0, 100] stays there |
| MainAgent.LifeBounded | NeuroVerse/src/main.py:158-171 | over any run of `check_tile` and `update` ticks, health that starts in [0, 100] stays there |
| MainAgent.ScoreCounts | NeuroVerse/src/main.py:158-166 | the score moves by +20 per food tile and -10 per fire tile met |
| MainAgent.Character.constructor | NeuroVerse/src/main.py:113-118 | a new character has full health 100 and score 0, and is valid when placed on the grid with a well-formed brain |
| MainAgent.Character.AiMove | NeuroVerse/src/main.py:120-156 | the brain values become one forward pass of the fed sensors; the position moves by `Step` of the chosen move; failure exactly when the choice is a KeyError; the character stays valid (on the grid, health in [0, 100]) |
| MainAgent.Character.Perceive | NeuroVerse/src/main.py:122-133 | the brain values after the nine `set` calls are `Feed` of the neighbour sensors and health |
| MainAgent.Character.CheckTile | NeuroVerse/src/main.py:158-166 | health and score change as the tile under the character says, a food tile is cleared, and the character stays valid |
| MainAgent.Character.Update | NeuroVerse/src/main.py:168-171 | health decays by 0.2, not below 0, nothing else changes, and the character stays valid |
| VariantWorld.BlockColumns | NeuroVerse/src/world.py:26-33 | the neighbourhood, scanned a column at a time, is the part scanned so far plus the next column |
| VariantWorld.BlockRows | NeuroVerse/src/world.py:27-33 | a column, scanned a row at a time, is the part scanned so far plus the next cell |
| VariantWorld.ReadingsLocal | NeuroVerse/src/world.py:22-34 | the sensor readings depend only on the 3x3 block around the character |
| VariantWorld.ReadingsCells | NeuroVerse/src/world.py:22-34 | fire or food on any of the nine cells, the centre included, turns its sensor on; an all-EMPTY block reads 0 for both |
| VariantWorld.Eat | NeuroVerse/src/world.py:36-41 | eating reports true exactly on a food cell, and no food is left there afterwards |
| VariantWorld.EatEffect | NeuroVerse/src/world.py:36-41 | a successful meal moves one cell from FOOD to EMPTY and changes nothing else; a second meal on the same cell fails and changes nothing |
| VariantWorld.PopulateFires | NeuroVerse/src/world.py:4-13 | a new world is size by size and well formed, with one to three fires; every fire draw still holds a fire after the food is placed |
| VariantWorld.PopulateFood | NeuroVerse/src/world.py:15-20 | a new world holds as many foods as were placed, three unless the draws ran out, and every other non-fire cell is EMPTY |
| VariantWorld.World.constructor | NeuroVerse/src/world.py:4-8 | a new world has the given size, 10 by default, and holds the grid that three fires followed by three foods produce |
| VariantWorld.World.PlaceFires | NeuroVerse/src/world.py:10-13 | each of the next `num` draws gets a fire, whatever the cell held, and the world stays valid |
| VariantWorld.World.PlaceFood | NeuroVerse/src/world.py:15-20 | the grid, the count placed and the first unused draw are what retry placement predicts, with no cell reserved, and the world stays valid |
| VariantWorld.World.Redraw | NeuroVerse/src/world.py:17-19 | the inner redraw loop stops on an EMPTY cell or at the end of the draws, and skipping non-empty cells changes nothing about what placement yields |
| VariantWorld.World.GetSensors | NeuroVerse/src/world.py:22-34 | the map holds `fire_sensor` and `food_sensor`, each 1 exactly when some on-grid cell of the 3x3 block holds that tile |
| VariantWorld.World.ScanColumn | NeuroVerse/src/world.py:27-33 | the inner loop over one column turns a sensor on exactly when an on-grid cell of that column holds its tile |
| VariantWorld.World.EatFood | NeuroVerse/src/world.py:36-41 | `eat_food` returns whether the cell held food and clears it |
| VariantCharacter.Hungrier | NeuroVerse/src/character.py:10-11 | hunger grows by 0.1 and is capped at 100 |
| VariantCharacter.HungerBit | NeuroVerse/src/character.py:14 | the hunger sensor is 1 exactly when hunger exceeds 30 |
| VariantCharacter.Clamp | NeuroVerse/src/character.py:30-31 | a coordinate is clamped into [0, 9] and is unchanged when already inside |
| VariantCharacter.MovedSteps | NeuroVerse/src/character.py:20-31 | the position stays in the 10-by-10 area, moves at most one cell per axis, opposite moves cancel, and a lone move steps toward its side unless the edge stops it |
| VariantCharacter.SettleNeverResets | NeuroVerse/src/character.py:34-36 | as written, hunger is never reset: on a food cell the first call eats and the second always fails |
| VariantCharacter.HungerStaysHigh | NeuroVerse/src/character.py:8-36 | as written, hunger above 30 stays above 30 and at most 100 after a tick, so the hunger sensor stays 1 |
| VariantCharacter.RefreshResets | NeuroVerse/src/character.py:34-36 | with a single meal attempt, hunger resets to 0 exactly when the character stands on food, and that food is gone |
| VariantCharacter.Character.constructor | NeuroVerse/src/character.py:2-6 | a new character is at its given position with hunger 50 |
| VariantCharacter.Character.Update | NeuroVerse/src/character.py:8-36 | hunger grows, the sensor map gets the hunger bit, the position is `Moved`, the world loses the food under the character, and hunger is reset only if the second meal succeeds |
| VariantCharacter.Character.UpdateIntended | NeuroVerse/src/character.py:8-36 | the same tick with one meal attempt, after which hunger is 0 exactly when food was eaten |
| VariantCharacter.Character.Move | NeuroVerse/src/character.py:20-31 | the four truthy-move checks and the clamp give the position `Moved` |

## Left out

- The `main()` game loop of `main.py` is not modelled: drawing, keyboard input, pygame and the frame clock are I/O.
- `neurons.py` is not part of this model. `brain.process` in `character.py` is taken as an arbitrary output map passed in by the caller.
- Randomness: each `random.randint` pair is one cell of a caller-supplied list of draws. The source's retry loops draw without end; here they stop when the list runs out, and the counters then report how many tiles were placed.
- Floating point is modelled as exact reals. Rounding, such as the accumulation of 0.1 hunger steps, is not captured.
- Python's mixing of `int` and `float` results (`max(0, h - 20)` can return the integer 0) is not distinguished; the numeric values agree.
- `Neuron.fire` is the identity, so the activation loop of `run` changes nothing and is not repeated in `Network.Brain.Run`.
- Network.Brain.Add: models `add(Neuron(name, kind))` with a fresh neuron only. Re-adding the very object already stored under that name changes nothing in the source, since its value and links stay. The model instead gives that neuron value 0 and drops its links both ways. `build_brain` always adds fresh neurons.
- Neuron objects outside a brain are not modelled: links are made between positions in the brain's table. Links made on a neuron before it is added, or to a neuron never added, have no counterpart.
- Neuron kinds are the three named ones. A kind string other than 'input' or 'output' behaves like 'hidden' in the source and is modelled as `Hidden`.
- MainAgent.Character.AiMove: KeyError is reported as a `false` result instead of being raised. As in the source, the brain values are already updated and the position is unchanged at that point.
- MainAgent.Character.CheckTile: requires the class invariant `Valid()`, which puts the character on the grid; `ai_move` keeps it there. Off the grid the source would wrap a negative index or raise IndexError.
- MainAgent.Character.AiMove: requires `Valid()` (position on the grid, health in [0, 100], well-formed brain). The source does not check it, but every character constructed on the grid keeps it from tick to tick.
- MainAgent.Character.Update: requires `Valid()` for the same reason; the decay itself is stated for any health.
- MainAgent.Feed: its own contract only keeps the length. The values it writes are stated by `MainAgent.FeedLayout` for tables laid out as `build_brain` lays them out.
- MainAgent.FleeFire, MainAgent.SeekFood, MainAgent.BrainActions and MainAgent.BrainNeverKeyError are stated for any name table with the `build_brain` layout. `MainAgent.BrainLayout` proves that `build_brain`'s own table has it.
- VariantWorld.World.constructor: requires a positive size. With size 0 `randint(0, -1)` raises ValueError, and a negative size gives an empty grid and the same error.
- VariantWorld.World.EatFood: requires the position to be on the grid. The source indexes the grid directly, so a negative index wraps around in Python and an index past the edge raises IndexError.
- VariantCharacter.Character.Update: requires the clamped position to lie on the world. `update` clamps to 0..9 whatever the world's size, so on a world smaller than 10 a position past its edge makes `eat_food` raise IndexError.
- VariantCharacter.Character.UpdateIntended: the same requirement as `Update`, for the same reason.
- VariantCharacter.Character.Update: the source writes the hunger sensor into the caller's dictionary. Here the updated map is returned instead.
- VariantCharacter.Character: the `brain` attribute is not kept. Only the outputs it would produce are used.

## Findings

| source | as written | input that shows it | evidently intended | confidence | as-written member | corrected member |
|---|---|---|---|---|---|---|
| NeuroVerse/src/character.py:34-36 | `eat_food` is called once with its result discarded, then again; hunger is reset only when the second call returns True | a character standing on a food tile with hunger 50: the first call removes the food, the second returns False, and hunger ends at 50.1 instead of 0 | one `eat_food` call whose result resets hunger to 0 | high; not executed | VariantCharacter.SettleNeverResets | VariantCharacter.RefreshResets |
