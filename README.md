# Agriculture simulator: a verified model of world construction, agent rules and movement

The agriculture simulator is a Mesa agent-based simulation on a toroidal multi-grid.
It has three kinds of static agent: a `Shed`, two `WaterSource`s and, when grass is
enabled, one `GrassPatch` on every other cell. It has two kinds of mover:
- harvesters (`Sheep`) reap ripe patches and carry the harvest to the shed;
- water carriers (`Wolf`) fill up at a source and water patches.

This project models three parts of it in Dafny:

- `grid.dfy` (module `Grid`): positions, the raw Manhattan distance the agents use, the torus wrap, and the ordered neighbourhood that includes the centre cell.
- `random_walk.dfy` (module `RandomWalk`): `TargetWalker.target_move` and `RandomWalker.random_move`.
  - The choice of the next cell is a function, `ChooseMove`, of the ordered candidate cells and of what the agent sees in each.
  - Its three branches are scanned loop for loop by `TargetChoice` and its helper methods. Each helper is proved equal to that function.
  - A random choice is an input: the index `random.choice` would draw.
- `agents.dfy` (module `Agents`): the shared world and the agents.
  - The world is the class `World`: the grid is a map from cells to ordered occupant lists, and the schedule is the list of agents.
  - Each agent is a class whose `Step` updates its fields in place.
  - The rules are also stated on values and proved about: `GrassRule` (the growth and decay automaton), `HarvestTask` (the sheep's work) and `WaterTask` (the wolf's work).
  - Each `Step` method is proved against its rule.
- `model.dfy` (module `Model`): the `WolfSheep` constructor.
  - It sites the shed and the two water sources with the `while True` retry loops.
  - It lays the grass and creates the sheep and the wolves.
  - Every random draw is an input, collected in `Draws`.
  - The constructor's contract states what the construction leaves:
    - where the shed and the sources stand;
    - one patch on every free cell when grass is on, and none on the three sited cells;
    - one shed, two sources, and one sheep and one wolf per draw in the schedule;
    - the grid is the schedule's agents placed in turn, each on the cell it records, and nothing stands on a cell off the grid, so every scheduled agent stands on a cell of the grid and every agent on the grid is scheduled;
    - every patch's growth flag, countdown and water level as drawn for its cell;
    - the schedule ending with one sheep per sheep draw and then one wolf per wolf draw, in draw order, each on its drawn cell with its drawn energy and the Moore neighbourhood;
    - every sheep heading for the shed, carrying nothing, in state DROP; every wolf heading for the nearer source, holding no water, in state PICK, with energy not negative.

`wrappers.dfy` holds the `Option` type.

The water level of a patch is a Python float. It is modelled as a `real`, and the
initial draw `random() * grass_regrowth_time` is a real fraction in `[0, 1)` scaled by
the regrowth time.

The grid is created as `MultiGrid(height, width)`, with the two sizes swapped with
respect to how the x and y coordinates are drawn. The model keeps the swap: the
world's width is the `height` parameter.

## Model

| member | source | states |
|---|---|---|
| Grid.Manhattan | agriculture_simulator/random_walk.py:102 | the raw distance \|dx\|+\|dy\|, with no wrap round the torus, is zero exactly on the same cell |
| Grid.Wrap | agriculture_simulator/model.py:85 | the torus adjustment always lands on the grid and leaves a cell on the grid unchanged |
| Grid.Neighbourhood | agriculture_simulator/random_walk.py:79 | the candidates are 9 (Moore) or 5 (von Neumann) cells, all on the grid, and include the agent's own cell |
| RandomWalk.FirstWhere | agriculture_simulator/random_walk.py:92-97 | the first index satisfying the test, with none before it; None exactly when no element satisfies it |
| RandomWalk.LastWhere | agriculture_simulator/random_walk.py:83-90 | the last index satisfying the test, with none after it; None exactly when no element satisfies it |
| RandomWalk.ChooseMove | agriculture_simulator/random_walk.py:79-106 | no agent_type: no move. Water/DROP: the last candidate holding a grass occupant with water_level <= 5000, and no move exactly when there is none. Harvest/DROP: the first candidate whose first occupant is fully grown, else the drawn candidate. PICK: the first candidate strictly closer to the target, else the drawn candidate |
| RandomWalk.Destination | agriculture_simulator/random_walk.py:107-109 | any move goes to one of the candidates; the agent stays exactly when ChooseMove gives no index |
| RandomWalk.TargetChoice | agriculture_simulator/random_walk.py:80-106 | target_move's scan gives exactly the cell Destination designates, for every role and state |
| RandomWalk.WaterScan | agriculture_simulator/random_walk.py:83-90 | the water branch's loop over candidates, with min_level reset for each, ends on Destination's cell for Water/DROP |
| RandomWalk.PassesWaterTest | agriculture_simulator/random_walk.py:84-90 | the inner loop over a cell's occupants sets next_move exactly when the cell is waterable |
| RandomWalk.RipeScan | agriculture_simulator/random_walk.py:92-99 | the harvest branch's loop with its break and random fallback ends on Destination's cell for Harvest/DROP |
| RandomWalk.CloserScan | agriculture_simulator/random_walk.py:101-106 | the PICK branch's loop with its break and random fallback ends on Destination's cell for PICK |
| RandomWalk.WaterablePrefixStep | agriculture_simulator/random_walk.py:87-90 | one more occupant examined makes the cell waterable exactly when it already was or that occupant passes the test |
| RandomWalk.WaterChoiceIsNotTheDriest | agriculture_simulator/random_walk.py:83-90 | a concrete pair of dry neighbours where the water carrier goes to the wetter, later one: min_level is reset per candidate, so the choice is not a minimum |
| RandomWalk.RandomMove | agriculture_simulator/random_walk.py:39-42 | random_move goes to one of the candidates |
| RandomWalk.RandomMoveMayStay | agriculture_simulator/random_walk.py:39-42 | some draw leaves the walker on its own cell, since the neighbourhood includes the centre |
| Agents.Without | agriculture_simulator/agents.py:51 | taking an agent out of a list keeps every other member and only members of the list |
| Agents.WithoutAbsent | agriculture_simulator/agents.py:50-51 | taking out an agent the list does not hold leaves the list unchanged, and an occupant before the agent stays first |
| Agents.WithoutAppend | agriculture_simulator/agents.py:50-51 | removal keeps the order of what remains: removing from a concatenation is removing from each part |
| Agents.CellView | agriculture_simulator/random_walk.py:84-95 | what the walker reads of a cell's occupants, one view per occupant in the cell's order: whether it is grass, its water level and its growth |
| Agents.World.Views | agriculture_simulator/random_walk.py:82-95 | the views of the candidate cells, one per candidate in order, each the view of that cell's current contents |
| Agents.FirstPatch | agriculture_simulator/agents.py:36 | the first grass patch of a cell: it is in the cell and no occupant before it is a patch; None exactly when the cell holds no patch |
| Agents.FirstShed | agriculture_simulator/agents.py:43 | the first shed of a cell: it is in the cell and no occupant before it is a shed; None exactly when the cell holds no shed |
| Agents.ArrivedFirsts | agriculture_simulator/random_walk.py:109 | a mover leaving one cell and joining the end of another changes neither cell's first patch nor its first shed |
| Agents.GrassRule | agriculture_simulator/agents.py:113-129 | water drops by exactly 1 when grown and 2 otherwise. At exactly -regrowth while grown, only fully_grown is cleared. Otherwise the patch is removed below -10*regrowth, with no other field changed. Otherwise an ungrown patch regrows with a full countdown when its countdown is spent, and counts down by one if not. A surviving patch keeps the countdown invariant |
| Agents.UnattendedDries | agriculture_simulator/agents.py:113-122 | over n steps in which the patch is neither watered nor reaped, a surviving patch loses at least n units of water and stays at or above -10*regrowth |
| Agents.UnattendedPatchIsRemoved | agriculture_simulator/agents.py:120-122 | a patch that is neither watered nor reaped is removed within water_level + 10*regrowth + 1 steps |
| Agents.HarvestTask | agriculture_simulator/agents.py:37-47 | reaping happens exactly when the first patch is grown and the load is below 500, and adds 10. Load plus deposit is the old load plus what was reaped. On a shed the load goes to 0 and the state to DROP; elsewhere a full load sets PICK. The load stays a multiple of 10 in [0, 500] and the deposit is never negative |
| Agents.WaterTask | agriculture_simulator/agents.py:76-89 | the state is PICK exactly when the water carried before refilling is below the distance to the target. A source refills to 500. A patch is watered exactly when there is one and water is left, which costs one unit. Storage stays in [0, 500] |
| Agents.World.constructor | agriculture_simulator/model.py:84-85 | an empty grid and an empty schedule, with the given sizes, grass flag and regrowth time |
| Agents.World.PlaceAgent | agriculture_simulator/model.py:96 | the agent is appended to the cell's list; the schedule is unchanged |
| Agents.World.RemoveAgent | agriculture_simulator/agents.py:50 | the agent is taken out of its cell; the schedule is unchanged |
| Agents.World.MoveAgent | agriculture_simulator/random_walk.py:109 | out of the old cell, onto the end of the new one |
| Agents.World.Add | agriculture_simulator/model.py:97 | the agent is appended to the schedule |
| Agents.World.Remove | agriculture_simulator/agents.py:51 | the agent is taken out of the schedule |
| Agents.GrassPatch.constructor | agriculture_simulator/agents.py:98-111 | a patch with the given position, growth flag, countdown and initial water level |
| Agents.GrassPatch.Step | agriculture_simulator/agents.py:113-129 | the new fields are GrassRule's; a removed patch leaves its cell and the schedule, and a surviving one changes neither |
| Agents.WaterSource.constructor | agriculture_simulator/agents.py:137-145 | a source on its cell with water level 999999999 |
| Agents.Shed.constructor | agriculture_simulator/agents.py:152-160 | a shed on its cell with harvest level 0 |
| Agents.Sheep.constructor | agriculture_simulator/agents.py:14-21 | a sheep carrying nothing, in state DROP |
| Agents.Sheep.TargetMove | agriculture_simulator/random_walk.py:74-109 | a sheep always moves, to the cell ChooseMove designates for a harvester, and the grid moves it there |
| Agents.Sheep.Work | agriculture_simulator/agents.py:30-52 | with grass on, the load, state, reaped patch and shed level change as HarvestTask says, and the sheep dies exactly when its energy is negative. With grass off nothing changes. Nothing else may change: only the sheep's load and state, the world, `fully_grown` of the cell's first patch and the harvest level of its first shed |
| Agents.Sheep.Step | agriculture_simulator/agents.py:23-52 | move, then work as HarvestTask says in the new cell. The load invariant is kept, and the death branch is never taken because energy is never negative. Besides the sheep and the world, only `fully_grown` of the first patch and the harvest level of the first shed in the cell it arrives on may change |
| Agents.Wolf.constructor | agriculture_simulator/agents.py:64-71 | a wolf with no water, in state PICK |
| Agents.Wolf.TargetMove | agriculture_simulator/random_walk.py:74-109 | a wolf moves to the cell ChooseMove designates for a water carrier, or stays when it designates none |
| Agents.Wolf.Work | agriculture_simulator/agents.py:76-89 | the state, storage and watered patch's level change as WaterTask says, watering adds grass_regrowth_time, and storage stays in [0, 500]. Nothing else may change: only the wolf's storage and state and the water level of the cell's first patch; the grid and schedule are untouched |
| Agents.Wolf.Step | agriculture_simulator/agents.py:73-89 | move, then work as WaterTask says in the new cell, with the distance measured from there; the schedule is unchanged. Besides the wolf and the world, only the water level of the first patch in the cell it arrives on may change |
| Model.OneCellNeverSites | agriculture_simulator/model.py:100-106 | on a grid one cell wide or high, every drawn cell is the shed's, so no draw ends the first siting loop |
| Model.DrawsAvoidEmptyRanges | agriculture_simulator/model.py:92-157 | draws exist only when no randrange of the constructor is empty: the grid has cells, each gain from food is positive when movers of its kind are asked for, and with a regrowth time of at most 0 every patch is drawn grown |
| Model.SiteFirstSource | agriculture_simulator/model.py:100-106 | the loop stops on the first draw whose cell holds no shed; every earlier draw held one |
| Model.SiteSecondSource | agriculture_simulator/model.py:110-119 | the loop stops on the first draw whose cell lacks a shed or lacks a source. Only a cell holding both is redrawn, so when no cell holds both it stops on its first draw |
| Model.ShedOnly | agriculture_simulator/model.py:93-105 | with only the shed placed, the first loop's shed test fails on exactly the shed's cell |
| Model.SecondSiteAlwaysAccepts | agriculture_simulator/model.py:110-119 | once ws1 is away from the shed, no cell holds both a shed and a source, so the second loop always exits on its first draw |
| Model.NewSource | agriculture_simulator/model.py:107-109 | a new source on the chosen cell, placed on the grid and appended to the schedule |
| Model.SiteResources | agriculture_simulator/model.py:92-122 | the shed stands on its draw; ws1 on the first draw away from the shed, which is never the shed's cell; ws2 on its first draw, which may be the shed's or ws1's cell. The grid holds exactly these three and the schedule lists them in order |
| Model.InitialCountdown | agriculture_simulator/model.py:132-136 | a grown patch starts with countdown grass_regrowth_time, an ungrown one in [0, grass_regrowth_time) |
| Model.InitialWaterBelowRegrowth | agriculture_simulator/agents.py:110 | a new patch's water level is in [0, grass_regrowth_time) |
| Model.FreshPatchInv | agriculture_simulator/model.py:132-140 | a patch as laid satisfies GrassRule's countdown invariant and starts with less water than grass_regrowth_time |
| Model.LayPatch | agriculture_simulator/model.py:132-140 | a fresh patch on the cell, with the growth flag, countdown and water drawn for that cell, placed on the cell and appended to the schedule |
| Model.LayCell | agriculture_simulator/model.py:127-140 | one visit of the layout: a patch on the cell unless it holds a source or the shed, and the cells visited so far stay laid. The patch appended to the schedule is the one placed on the grid, on this cell, as drawn for it |
| Model.LayColumn | agriculture_simulator/model.py:126-140 | one column of the layout, bottom to top, leaves every cell of the columns done so far laid. The grid is the old grid with the patches appended to the schedule placed in turn on their own cells, each as drawn for its cell |
| Model.LayGrass | agriculture_simulator/model.py:125-140 | every cell of the grid holding neither a source nor the shed gets exactly one patch at the end of its list, and every other cell is left as it was. The schedule gains a list of patches, each as drawn for its cell, and the grid is the old grid with exactly that list placed in turn on the patches' own cells |
| Model.LaidTally | agriculture_simulator/model.py:128-140 | laying a cell adds one patch to it exactly when it is not special |
| Model.WolfTarget | agriculture_simulator/model.py:159-162 | a wolf heads for a nearest source by Manhattan distance; ws1 only when strictly closer, ties going to ws2 |
| Model.NewSheep | agriculture_simulator/model.py:145-151 | a fresh sheep on its drawn cell with its drawn energy and the Moore neighbourhood, heading for the shed, carrying nothing, in state DROP, placed and scheduled |
| Model.NewWolf | agriculture_simulator/model.py:155-164 | a fresh wolf on its drawn cell with its drawn energy and the Moore neighbourhood, heading for WolfTarget's source, holding no water, in state PICK, placed and scheduled |
| Model.SpawnSheep | agriculture_simulator/model.py:144-151 | one sheep per draw, in draw order, appended to the schedule; the i-th is made from the i-th draw: its cell, its energy, the Moore neighbourhood, the shed as target, no load, state DROP. The grid is the old grid with these sheep placed in turn on their drawn cells |
| Model.SpawnWolves | agriculture_simulator/model.py:154-164 | one wolf per draw, in draw order, appended to the schedule; the i-th is made from the i-th draw: its cell, its energy, the Moore neighbourhood, WolfTarget's source, no water, state PICK. The grid is the old grid with these wolves placed in turn on their drawn cells |
| Model.SpawnMovers | agriculture_simulator/model.py:143-164 | the sheep, then the wolves, after what the schedule held, the i-th of each made from the i-th draw of its kind as SpawnSheep and SpawnWolves state. If the grid was the schedule placed in turn, it still is, and every scheduled agent keeps its initial roster facts, wolves' energies included. With every draw on the grid, cells off the grid are unchanged |
| Model.AppendedAsDrawn | agriculture_simulator/model.py:143-164 | sheep and wolves made from their draws and appended to a schedule are, by position from its end, the movers each draw made |
| Model.Populate | agriculture_simulator/model.py:124-164 | after the layout and the movers, the grid and schedule are the sited ones extended by patches, then sheep, then wolves, one per draw. The schedule ends with the movers as drawn (MoversAsDrawn: cell, energy, Moore neighbourhood, target, empty load or storage, initial state). The grid is the whole schedule placed in turn on the agents' own cells, and no cell off the grid holds anything |
| Model.PlaceAllOffGrid | agriculture_simulator/model.py:96-164 | placing agents on cells of the grid leaves every cell off the grid as it was |
| Model.NothingOffGrid | agriculture_simulator/model.py:92-164 | with the shed and sources sited on the grid, a grid laid from the sited one and changed only on the grid holds nothing off it |
| Model.PlaceAllAppend | agriculture_simulator/model.py:96-164 | placing one list of agents and then another is placing their concatenation |
| Model.PlaceAllCells | agriculture_simulator/model.py:96-164 | after agents are placed in turn, each stands in the cell it was placed on, every cell keeps what it held, and whatever a cell gained is one of the placed agents |
| Model.GridOfSchedule | agriculture_simulator/model.py:96-164 | when the grid is the schedule placed in turn on the agents' own cells, every scheduled agent is in its cell and every agent in any cell is scheduled |
| Model.SitedPlaced | agriculture_simulator/model.py:92-122 | the sited grid is the shed, ws1 and ws2 placed in turn on their cells |
| Model.PopulatedCells | agriculture_simulator/model.py:124-164 | in the finished grid, every cell holds one patch when grass is on and the cell is not one of the three sited cells, otherwise none, and keeps what siting put there |
| Model.PopulatedSchedule | agriculture_simulator/model.py:97-164 | the finished schedule starts with the shed and the two sources and holds one shed, two sources, and one sheep and one wolf per draw |
| Model.ScheduleRegions | agriculture_simulator/model.py:97-164 | in the finished schedule, patches come after the three sited agents, then sheep, then wolves |
| Model.Furnish | agriculture_simulator/model.py:124-164 | the layout and movers leave the finished world (Furnished): the finished grid, with nothing on any cell off it, and the finished schedule, the grid being the schedule placed in turn, every patch as drawn for its cell, and the schedule ending with each sheep and wolf made from its draw, in draw order, with its drawn cell and energy, the Moore neighbourhood, its target, an empty load or storage and its initial state |
| Model.ScheduledOnGrid | agriculture_simulator/model.py:92-164 | in the finished world every scheduled agent records a cell of the grid |
| Model.WolfSheep.constructor | agriculture_simulator/model.py:45-168 | swapped grid dimensions; the siting as SiteResources says; one patch per free cell with grass on; one shed, two sources, and as many sheep and wolves as asked; the grid is the schedule placed in turn on the agents' own cells, with nothing on any cell off the grid; every patch's growth flag, countdown and water as drawn for its cell; the schedule ending with one sheep per sheep draw and then one wolf per wolf draw, each on its drawn cell with its drawn energy and the Moore neighbourhood; every sheep heading for the shed, carrying nothing, in state DROP; every wolf heading for WolfTarget's source, holding no water, in state PICK, with energy not negative; running is true |

## Left out

- Mesa internals are not part of this model: `get_neighborhood`, `move_agent`, `_remove_agent` and `coord_iter`.
  - The neighbourhood is modelled as the centre-including offsets in row order, wrapped modulo the grid size.
  - Mesa's own ordering and de-duplication on grids narrower than three cells are not modelled.
- The scheduler is not part of this model: `RandomActivationByBreed` in agriculture_simulator/schedule.py. So `WolfSheep.step`, a tick over the shuffled agents, is left out. So is `run_model`, the loop of ticks. The single-agent `Step` methods are modelled.
- The `DataCollector`, the `verbose` printing, `next_id` and the web server (agriculture_simulator/server.py) are left out. They carry no simulation logic.
- Randomness is not modelled as such. `randrange`, `choice` and `random()` are inputs (`Draws`, `pick`), constrained to the ranges they return.
- The constructor's `ValueError` paths are not modelled. `randrange` of an empty range raises in the source. That happens when width or height is 0 (model.py:93), when a gain from food is at most 0 and movers of that kind are asked for (model.py:147, 157), and when the regrowth time is at most 0 and a patch is drawn ungrown (model.py:136). `DrawsOk` admits no draws in these cases, so the model's constructor cannot be called there (DrawsAvoidEmptyRanges).
- The `while True` siting loops are modelled over finite draw sequences.
  - The first loop is required to be given an acceptable draw (`DrawsEnd`).
  - On a 1x1 grid every draw is the shed's cell, so the source's first loop never ends. No acceptable draw exists there, so `DrawsEnd` cannot hold (OneCellNeverSites), and the hang is excluded rather than modelled. When both sizes are at least 2, the loop ends with probability one.
  - On a grid one cell wide or high but longer the other way, `Drawn` also confines every draw to the cell (0, 0), so the model's constructor cannot be called there either.
  - The second loop is given at least one draw, and is proved to stop on it.
- Floating point rounding is not modelled. `water_level` is an exact real, including in the equality test `water_level == -grass_regrowth_time`.
- `grass_regrowth_time` is modelled as an integer, as the constructor's default is.
- The reproduction probabilities `sheep_reproduce` and `wolf_reproduce` are stored in `Config` but never used by the rules. `sheep_gain_from_food` and `wolf_gain_from_food` are used only as bounds on the initial energy draws.
- The sheep's and the wolf's `energy`, `fully_grown` and `agent_type` fields are modelled only where the rules read them.
  - `fully_grown` is false on every mover and static agent.
  - `agent_type` is the role passed to ChooseMove.
- Drawn cells are required to lie on the grid in both orientations (`Drawn`). The grid is `MultiGrid(height, width)` while x is drawn from the width and y from the height, so a non-square grid can draw a cell off the grid; the model does not follow that placement error.
- Agents.Without removes every occurrence of the agent, while `list.remove` removes the first. They agree because an agent is scheduled once.
- RandomWalk.ChooseMove follows the code for the water carrier's choice. Read as a running minimum, `min_level` would select the driest neighbour. The code resets it to 5000 for every candidate, so it picks the last waterable one (WaterChoiceIsNotTheDriest).
