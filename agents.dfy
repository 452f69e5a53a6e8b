/** The agents of the agriculture simulator and their per-tick steps.

    - GrassPatch: a growth/decay automaton on its water level and regrowth countdown.
    - Sheep (role HARVEST): reaps ripe patches, 10 units at a time up to 500,
      and empties its load into the Shed.
    - Wolf (role WATER): refills at a WaterSource and waters grass patches.
    - WaterSource and Shed: stationary, with no behaviour of their own.

    `World` holds what the agents read and change of the simulation model: the
    multi-grid (each cell an ordered list of occupants), the schedule's
    registry of live agents, the `grass` flag and `grass_regrowth_time`. Each
    step is stated against a function of the old state (GrassRule, HarvestTask,
    WaterTask), and the properties of the rules are proved about those functions. */
module Agents {
  import opened Wrappers
  import opened Grid
  import opened RandomWalk

  /** Sheep._limit_harvest, and what one ripe patch yields. */
  const HarvestLimit: int := 500
  const HarvestUnit: int := 10

  /** Wolf._water_cap. */
  const WaterCap: int := 500

  /** WaterSource.water_level: set once, never read by the rules. */
  const SourceWaterLevel: int := 999999999

  /** An occupant of a grid cell and a member of the schedule. */
  datatype Agent =
    | SheepA(sheep: Sheep)
    | WolfA(wolf: Wolf)
    | GrassA(patch: GrassPatch)
    | SourceA(source: WaterSource)
    | ShedA(shed: Shed)
  {
    function Obj(): object
    {
      match this
      case SheepA(s) => s
      case WolfA(w) => w
      case GrassA(g) => g
      case SourceA(ws) => ws
      case ShedA(sh) => sh
    }
  }

  // ---------------------------------------------------------------------------
  // Cell lists and the grid as a value

  /** The list with `a` taken out. */
  function Without(s: seq<Agent>, a: Agent): (r: seq<Agent>)
    ensures forall i :: 0 <= i < |r| ==> r[i] in s && r[i] != a
    ensures forall i :: 0 <= i < |s| && s[i] != a ==> s[i] in r
    ensures |r| <= |s|
  {
    if |s| == 0 then []
    else if s[0] == a then Without(s[1..], a)
    else [s[0]] + Without(s[1..], a)
  }

  /** Taking out an agent the list does not hold leaves the list as it was,
      and an agent before `a` stays first. */
  lemma {:induction false} WithoutAbsent(s: seq<Agent>, a: Agent)
    ensures a !in s ==> Without(s, a) == s
    ensures |s| > 0 && s[0] != a ==> |Without(s, a)| > 0 && Without(s, a)[0] == s[0]
    decreases |s|
  {
    if |s| > 0 {
      WithoutAbsent(s[1..], a);
      if a !in s {
        assert a !in s[1..];
        assert s == [s[0]] + s[1..];
      }
    }
  }

  /** Removal keeps the order of what remains: it distributes over
      concatenation. */
  lemma {:induction false} WithoutAppend(s: seq<Agent>, t: seq<Agent>, a: Agent)
    ensures Without(s + t, a) == Without(s, a) + Without(t, a)
    decreases |s|
  {
    if |s| > 0 {
      assert (s + t)[1..] == s[1..] + t;
      WithoutAppend(s[1..], t, a);
    } else {
      assert s + t == t;
    }
  }

  function CellOf(grid: map<Pos, seq<Agent>>, p: Pos): seq<Agent>
  {
    if p in grid then grid[p] else []
  }

  /** place_agent: `a` joins the end of the cell's list. */
  function Place(grid: map<Pos, seq<Agent>>, p: Pos, a: Agent): map<Pos, seq<Agent>>
  {
    grid[p := CellOf(grid, p) + [a]]
  }

  /** _remove_agent: `a` leaves the cell's list. */
  function Take(grid: map<Pos, seq<Agent>>, p: Pos, a: Agent): map<Pos, seq<Agent>>
  {
    grid[p := Without(CellOf(grid, p), a)]
  }

  function AgentObjects(cell: seq<Agent>): set<object>
  {
    set a | a in cell :: a.Obj()
  }

  /** Every object that occupies some cell of the grid. */
  ghost function ObjectsOf(grid: map<Pos, seq<Agent>>): set<object>
  {
    set p, a | p in grid && a in grid[p] :: a.Obj()
  }

  lemma CellObjectsInGrid(grid: map<Pos, seq<Agent>>, p: Pos)
    ensures AgentObjects(CellOf(grid, p)) <= ObjectsOf(grid)
  {
    forall o | o in AgentObjects(CellOf(grid, p))
      ensures o in ObjectsOf(grid)
    {
      var a :| a in CellOf(grid, p) && a.Obj() == o;
      assert p in grid && a in grid[p];
    }
  }

  /** After `a` moves from `from` to `to`, its new cell holds nothing that was
      not somewhere on the grid before, apart from `a` itself. */
  lemma MovedCellObjects(grid: map<Pos, seq<Agent>>, from: Pos, to: Pos, a: Agent)
    ensures AgentObjects(CellOf(grid, to)) <= ObjectsOf(grid) + {a.Obj()}
    ensures AgentObjects(CellOf(Place(Take(grid, from, a), to, a), to)) <= ObjectsOf(grid) + {a.Obj()}
  {
    CellObjectsInGrid(grid, to);
    forall o | o in AgentObjects(CellOf(Place(Take(grid, from, a), to, a), to))
      ensures o in ObjectsOf(grid) + {a.Obj()}
    {
      var b :| b in CellOf(Place(Take(grid, from, a), to, a), to) && b.Obj() == o;
      if b != a {
        assert b in CellOf(grid, to);
        assert o in AgentObjects(CellOf(grid, to));
      }
    }
  }

  /** The first grass patch of a cell, if any. */
  function FirstPatch(cell: seq<Agent>): (r: Option<GrassPatch>)
    ensures r.Some? ==> exists k :: 0 <= k < |cell| && cell[k] == GrassA(r.value) &&
                                    forall j :: 0 <= j < k ==> !cell[j].GrassA?
    ensures r.None? <==> forall i :: 0 <= i < |cell| ==> !cell[i].GrassA?
  {
    if |cell| == 0 then None
    else if cell[0].GrassA? then Some(cell[0].patch)
    else FirstPatch(cell[1..])
  }

  /** The first shed of a cell, if any. */
  function FirstShed(cell: seq<Agent>): (r: Option<Shed>)
    ensures r.Some? ==> exists k :: 0 <= k < |cell| && cell[k] == ShedA(r.value) &&
                                    forall j :: 0 <= j < k ==> !cell[j].ShedA?
    ensures r.None? <==> forall i :: 0 <= i < |cell| ==> !cell[i].ShedA?
  {
    if |cell| == 0 then None
    else if cell[0].ShedA? then Some(cell[0].shed)
    else FirstShed(cell[1..])
  }

  /** The first patch of a cell, as the set of objects a mover's work may write. */
  function PatchSet(cell: seq<Agent>): set<GrassPatch>
  {
    if FirstPatch(cell).Some? then {FirstPatch(cell).value} else {}
  }

  /** The first shed of a cell, likewise. */
  function ShedSet(cell: seq<Agent>): set<Shed>
  {
    if FirstShed(cell).Some? then {FirstShed(cell).value} else {}
  }

  /** A mover joining the end of a cell leaves its first patch and first shed as they were. */
  lemma {:induction false} FirstsAppend(c: seq<Agent>, a: Agent)
    requires a.SheepA? || a.WolfA?
    ensures FirstPatch(c + [a]) == FirstPatch(c) && FirstShed(c + [a]) == FirstShed(c)
    decreases |c|
  {
    if |c| == 0 {
      assert [a][1..] == [];
    } else {
      assert (c + [a])[1..] == c[1..] + [a];
      FirstsAppend(c[1..], a);
    }
  }

  /** A mover leaving a cell leaves its first patch and first shed as they were. */
  lemma {:induction false} FirstsWithout(c: seq<Agent>, a: Agent)
    requires a.SheepA? || a.WolfA?
    ensures FirstPatch(Without(c, a)) == FirstPatch(c) && FirstShed(Without(c, a)) == FirstShed(c)
    decreases |c|
  {
    if |c| > 0 {
      FirstsWithout(c[1..], a);
    }
  }

  /** After a mover's move_agent, the cell it arrives in has the first patch
      and the first shed that cell had before. */
  lemma ArrivedFirsts(g: map<Pos, seq<Agent>>, from: Pos, to: Pos, a: Agent)
    requires a.SheepA? || a.WolfA?
    ensures var c := CellOf(Place(Take(g, from, a), to, a), to);
            PatchSet(c) == PatchSet(CellOf(g, to)) && ShedSet(c) == ShedSet(CellOf(g, to))
  {
    var c0 := CellOf(Take(g, from, a), to);
    FirstsAppend(c0, a);
    if from == to {
      FirstsWithout(CellOf(g, to), a);
    }
  }

  predicate HasSource(cell: seq<Agent>)
  {
    exists a :: a in cell && a.SourceA?
  }

  /** What target_move reads of an occupant (see RandomWalk.Occupant). */
  function View(a: Agent): Occupant
    reads a.Obj()
  {
    match a
    case GrassA(g) => Occupant(true, g.waterLevel, g.fullyGrown)
    case _ => Occupant(false, 0.0, false)
  }

  function CellView(cell: seq<Agent>): (r: seq<Occupant>)
    reads AgentObjects(cell)
    ensures |r| == |cell|
    ensures forall i :: 0 <= i < |cell| ==> r[i] == View(cell[i])
  {
    if |cell| == 0 then [] else [View(cell[0])] + CellView(cell[1..])
  }

  // ---------------------------------------------------------------------------
  // GrassPatch.step as a rule on values

  datatype PatchState = PatchState(waterLevel: real, fullyGrown: bool, countdown: int)

  /** The patch's next fields, and whether it leaves the grid and the schedule. */
  datatype PatchStep = PatchStep(next: PatchState, removed: bool)

  /** The regrowth invariant every live patch keeps: the countdown lies in
      [0, grass_regrowth_time], and a grown patch's countdown is full. */
  predicate PatchInv(p: PatchState, regrowth: int)
  {
    0 <= p.countdown <= regrowth && (p.fullyGrown ==> p.countdown == regrowth)
  }

  /** One GrassPatch.step on the patch's fields. */
  function GrassRule(p: PatchState, regrowth: int): (r: PatchStep)
    // the water level drops by exactly 1 when grown and 2 otherwise
    ensures r.next.waterLevel == p.waterLevel - (if p.fullyGrown then 1.0 else 2.0)
    // wilting at exactly -regrowth: only fully_grown changes, the patch stays
    ensures p.fullyGrown && r.next.waterLevel == -(regrowth as real) ==>
              !r.removed && r.next == PatchState(r.next.waterLevel, false, p.countdown)
    // otherwise removal below -10 * regrowth, with no other field changed
    ensures r.removed <==>
              !(p.fullyGrown && r.next.waterLevel == -(regrowth as real)) &&
              r.next.waterLevel < -10.0 * (regrowth as real)
    ensures r.removed ==> r.next.fullyGrown == p.fullyGrown && r.next.countdown == p.countdown
    // otherwise an ungrown patch counts down, and regrows once the countdown is spent
    ensures !r.removed && !p.fullyGrown ==>
              if p.countdown <= 0 then r.next.fullyGrown && r.next.countdown == regrowth
              else !r.next.fullyGrown && r.next.countdown == p.countdown - 1
    // a grown patch that neither wilts nor dies is left as it is
    ensures !r.removed && p.fullyGrown && r.next.waterLevel != -(regrowth as real) ==>
              r.next.fullyGrown && r.next.countdown == p.countdown
    // a surviving patch keeps the regrowth invariant and a water level >= -10 * regrowth
    ensures !r.removed && PatchInv(p, regrowth) ==> PatchInv(r.next, regrowth)
    ensures !r.removed && regrowth >= 0 ==> r.next.waterLevel >= -10.0 * (regrowth as real)
  {
    var water := p.waterLevel - (if p.fullyGrown then 1.0 else 2.0);
    if water == -(regrowth as real) && p.fullyGrown then
      PatchStep(PatchState(water, false, p.countdown), false)
    else if water < -10.0 * (regrowth as real) then
      PatchStep(PatchState(water, p.fullyGrown, p.countdown), true)
    else if !p.fullyGrown then
      if p.countdown <= 0 then PatchStep(PatchState(water, true, regrowth), false)
      else PatchStep(PatchState(water, false, p.countdown - 1), false)
    else
      PatchStep(PatchState(water, p.fullyGrown, p.countdown), false)
  }

  /** `n` steps of a patch that nobody waters or reaps, stopping at its removal. */
  function Unattended(p: PatchState, regrowth: int, n: nat): PatchStep
    decreases n
  {
    if n == 0 then PatchStep(p, false)
    else
      var s := GrassRule(p, regrowth);
      if s.removed then s else Unattended(s.next, regrowth, n - 1)
  }

  /** Left alone, a patch loses at least one unit of water per step, and while
      it survives its water level stays at or above -10 * regrowth. */
  lemma {:induction false} UnattendedDries(p: PatchState, regrowth: int, n: nat)
    requires regrowth >= 0
    ensures var s := Unattended(p, regrowth, n);
            s.removed ||
            (s.next.waterLevel <= p.waterLevel - (n as real) &&
             (n > 0 ==> s.next.waterLevel >= -10.0 * (regrowth as real)))
    decreases n
  {
    if n > 0 {
      var s := GrassRule(p, regrowth);
      if !s.removed {
        UnattendedDries(s.next, regrowth, n - 1);
      }
    }
  }

  /** Left alone, a patch is removed within water_level + 10 * regrowth + 1 steps. */
  lemma {:induction false} UnattendedPatchIsRemoved(p: PatchState, regrowth: int, n: nat)
    requires regrowth >= 0
    requires n > 0 && (n as real) > p.waterLevel + 10.0 * (regrowth as real)
    ensures Unattended(p, regrowth, n).removed
  {
    UnattendedDries(p, regrowth, n);
  }

  // ---------------------------------------------------------------------------
  // The sheep's and the wolf's work, as rules on values

  /** A sheep's load: a multiple of 10 in [0, 500], and a full load means PICK. */
  predicate SheepInv(harvest: int, state: TaskState)
  {
    0 <= harvest <= HarvestLimit && harvest % HarvestUnit == 0 &&
    (harvest == HarvestLimit ==> state == Pick)
  }

  /** The sheep's new load and state, whether it reaped the patch, and what it
      put into the shed. */
  datatype HarvestOutcome = HarvestOutcome(harvest: int, state: TaskState, reaped: bool, deposit: int)

  /** The sheep's work in the cell it moved to: `firstPatch` is the fully_grown
      flag of the cell's first grass patch, if there is one, and `atShed` says
      whether the cell holds a shed. Reaping comes before depositing. */
  function HarvestTask(harvest: int, state: TaskState, firstPatch: Option<bool>, atShed: bool)
    : (r: HarvestOutcome)
    ensures r.reaped <==> firstPatch == Some(true) && harvest < HarvestLimit
    // nothing is lost: the load plus the deposit is the old load plus what was reaped
    ensures r.harvest + r.deposit == harvest + (if r.reaped then HarvestUnit else 0)
    ensures atShed ==> r.harvest == 0 && r.state == Drop
    ensures !atShed ==>
              r.deposit == 0 && r.state == (if r.reaped && r.harvest == HarvestLimit then Pick else state)
    // the load invariant is kept, and the shed never loses harvest
    ensures SheepInv(harvest, state) ==> SheepInv(r.harvest, r.state) && r.deposit >= 0
  {
    var reaped := firstPatch == Some(true) && harvest < HarvestLimit;
    var load := if reaped then harvest + HarvestUnit else harvest;
    if atShed then HarvestOutcome(0, Drop, reaped, load)
    else HarvestOutcome(load, if reaped && load == HarvestLimit then Pick else state, reaped, 0)
  }

  /** The wolf's new state and water, and whether it watered the cell's patch. */
  datatype WaterOutcome = WaterOutcome(state: TaskState, storage: int, watered: bool)

  /** The wolf's work in the cell it moved to: `distance` is the Manhattan
      distance from there to its target source, `atSource` whether the cell
      holds a water source, `patchHere` whether it holds a grass patch. */
  function WaterTask(storage: int, distance: nat, atSource: bool, patchHere: bool): (r: WaterOutcome)
    // the state is decided on the water carried before any refill
    ensures r.state == Pick <==> storage < distance
    ensures r.watered <==> patchHere && (atSource || storage > 0)
    ensures r.storage == (if atSource then WaterCap else storage) - (if r.watered then 1 else 0)
    ensures 0 <= storage <= WaterCap ==> 0 <= r.storage <= WaterCap
  {
    var state := if storage < distance then Pick else Drop;
    var filled := if atSource then WaterCap else storage;
    if patchHere && filled > 0 then WaterOutcome(state, filled - 1, true)
    else WaterOutcome(state, filled, false)
  }

  // ---------------------------------------------------------------------------
  // The state the agents share

  class World {
    const width: int
    const height: int
    const grass: bool
    const regrowth: int
    var grid: map<Pos, seq<Agent>>
    var schedule: seq<Agent>

    constructor (width: int, height: int, grass: bool, regrowth: int)
      ensures this.width == width && this.height == height
      ensures this.grass == grass && this.regrowth == regrowth
      ensures grid == map[] && schedule == []
    {
      this.width, this.height := width, height;
      this.grass, this.regrowth := grass, regrowth;
      grid, schedule := map[], [];
    }

    function Cell(p: Pos): seq<Agent>
      reads this
    {
      CellOf(grid, p)
    }

    ghost function Objects(): set<object>
      reads this
    {
      ObjectsOf(grid)
    }

    /** The views of the candidate cells, in order. */
    function Views(nbrs: seq<Pos>): (r: seq<seq<Occupant>>)
      reads this, Objects()
      ensures |r| == |nbrs|
      ensures forall i :: 0 <= i < |nbrs| ==> (CellObjectsInGrid(grid, nbrs[i]); r[i] == CellView(Cell(nbrs[i])))
    {
      if |nbrs| == 0 then []
      else
        CellObjectsInGrid(grid, nbrs[0]);
        [CellView(Cell(nbrs[0]))] + Views(nbrs[1..])
    }

    method PlaceAgent(a: Agent, p: Pos)
      modifies this
      ensures grid == Place(old(grid), p, a) && schedule == old(schedule)
    {
      grid := Place(grid, p, a);
    }

    method RemoveAgent(p: Pos, a: Agent)
      modifies this
      ensures grid == Take(old(grid), p, a) && schedule == old(schedule)
    {
      grid := Take(grid, p, a);
    }

    /** move_agent's grid part: out of the old cell, onto the end of the new one. */
    method MoveAgent(a: Agent, from: Pos, to: Pos)
      modifies this
      ensures grid == Place(Take(old(grid), from, a), to, a) && schedule == old(schedule)
    {
      RemoveAgent(from, a);
      PlaceAgent(a, to);
    }

    method Add(a: Agent)
      modifies this
      ensures schedule == old(schedule) + [a] && grid == old(grid)
    {
      schedule := schedule + [a];
    }

    method Remove(a: Agent)
      modifies this
      ensures schedule == Without(old(schedule), a) && grid == old(grid)
    {
      schedule := Without(schedule, a);
    }
  }

  // ---------------------------------------------------------------------------
  // The agents

  class GrassPatch {
    const pos: Pos
    var fullyGrown: bool
    var countdown: int
    var waterLevel: real

    /** `waterLevel` is the caller's draw of random() * grass_regrowth_time. */
    constructor (pos: Pos, fullyGrown: bool, countdown: int, waterLevel: real)
      ensures this.pos == pos && State() == PatchState(waterLevel, fullyGrown, countdown)
    {
      this.pos := pos;
      this.fullyGrown, this.countdown, this.waterLevel := fullyGrown, countdown, waterLevel;
    }

    function State(): PatchState
      reads this
    {
      PatchState(waterLevel, fullyGrown, countdown)
    }

    method Step(world: World)
      modifies this, world
      ensures var s := GrassRule(old(State()), world.regrowth);
              State() == s.next &&
              world.grid == (if s.removed then Take(old(world.grid), pos, GrassA(this)) else old(world.grid)) &&
              world.schedule == (if s.removed then Without(old(world.schedule), GrassA(this)) else old(world.schedule))
    {
      if fullyGrown {
        waterLevel := waterLevel - 1.0;
      } else {
        waterLevel := waterLevel - 2.0;
      }
      if waterLevel == -(world.regrowth as real) && fullyGrown {
        fullyGrown := false;
      } else if waterLevel < -10.0 * (world.regrowth as real) {
        world.RemoveAgent(pos, GrassA(this));
        world.Remove(GrassA(this));
      } else if !fullyGrown {
        if countdown <= 0 {
          fullyGrown := true;
          countdown := world.regrowth;
        } else {
          countdown := countdown - 1;
        }
      }
    }
  }

  class WaterSource {
    const pos: Pos
    const waterLevel: int

    constructor (pos: Pos)
      ensures this.pos == pos && waterLevel == SourceWaterLevel
    {
      this.pos := pos;
      waterLevel := SourceWaterLevel;
    }
  }

  class Shed {
    const pos: Pos
    var harvestLevel: int

    constructor (pos: Pos)
      ensures this.pos == pos && harvestLevel == 0
    {
      this.pos := pos;
      harvestLevel := 0;
    }
  }

  /** The harvesting mover. Its energy is drawn at creation and never spent. */
  class Sheep {
    var pos: Pos
    const moore: bool
    const energy: int
    const target: Shed
    var state: TaskState
    var harvest: int

    constructor (pos: Pos, moore: bool, energy: int, target: Shed)
      ensures this.pos == pos && this.moore == moore && this.energy == energy && this.target == target
      ensures harvest == 0 && state == Drop
    {
      this.pos, this.moore, this.energy, this.target := pos, moore, energy, target;
      harvest, state := 0, Drop;
    }

    ghost predicate Valid()
      reads this
    {
      SheepInv(harvest, state) && energy >= 0
    }

    /** The cell target_move takes the sheep to, if it moves. */
    ghost function Destination(world: World, pick: nat): Option<Pos>
      reads this, target, world, world.Objects()
      requires world.width > 0 && world.height > 0
      requires pick < |Neighbourhood(pos, moore, world.width, world.height)|
    {
      var nbrs := Neighbourhood(pos, moore, world.width, world.height);
      RandomWalk.Destination(Some(Harvest), state, pos, target.pos, nbrs, world.Views(nbrs), pick)
    }

    /** The cell the sheep's move takes it to, as it stands before the move. */
    ghost function Arrival(world: World, pick: nat): seq<Agent>
      reads this, target, world, world.Objects()
      requires world.width > 0 && world.height > 0
      requires pick < |Neighbourhood(pos, moore, world.width, world.height)|
    {
      var dest := Destination(world, pick);
      world.Cell(if dest.Some? then dest.value else pos)
    }

    /** TargetWalker.target_move for a sheep. */
    method TargetMove(world: World, pick: nat)
      requires world.width > 0 && world.height > 0
      requires pick < |Neighbourhood(pos, moore, world.width, world.height)|
      modifies this`pos, world
      // a sheep always moves: to the first ripe cell, the first closer cell or the drawn one
      ensures var dest := old(Destination(world, pick));
              dest.Some? && pos == dest.value &&
              world.grid == Place(Take(old(world.grid), old(pos), SheepA(this)), pos, SheepA(this))
      ensures world.schedule == old(world.schedule)
      ensures AgentObjects(world.Cell(pos)) <= old(world.Objects()) + {this}
    {
      var nbrs := Neighbourhood(pos, moore, world.width, world.height);
      var next := TargetChoice(Some(Harvest), state, pos, target.pos, nbrs, world.Views(nbrs), pick);
      if next.Some? {
        world.MoveAgent(SheepA(this), pos, next.value);
        pos := next.value;
      }
      MovedCellObjects(old(world.grid), old(pos), pos, SheepA(this));
    }

    /** The sheep's work in its cell, after moving. With grass enabled a sheep
        whose energy is negative leaves the grid and the schedule. */
    method Work(world: World)
      requires SheepInv(harvest, state)
      modifies this`harvest, this`state, world
      modifies PatchSet(world.Cell(pos))`fullyGrown, ShedSet(world.Cell(pos))`harvestLevel
      ensures SheepInv(harvest, state)
      ensures if world.grass && energy < 0 then
                world.grid == Take(old(world.grid), pos, SheepA(this)) &&
                world.schedule == Without(old(world.schedule), SheepA(this))
              else
                world.grid == old(world.grid) && world.schedule == old(world.schedule)
      ensures var cell := old(world.Cell(pos));
              var patch := FirstPatch(cell);
              var shed := FirstShed(cell);
              var r := HarvestTask(old(harvest), old(state),
                                   if patch.Some? then Some(old(patch.value.fullyGrown)) else None, shed.Some?);
              if world.grass then
                harvest == r.harvest && state == r.state &&
                (patch.Some? ==> patch.value.fullyGrown == (old(patch.value.fullyGrown) && !r.reaped)) &&
                (shed.Some? ==> shed.value.harvestLevel == old(shed.value.harvestLevel) + r.deposit)
              else
                harvest == old(harvest) && state == old(state) &&
                (patch.Some? ==> patch.value.fullyGrown == old(patch.value.fullyGrown)) &&
                (shed.Some? ==> shed.value.harvestLevel == old(shed.value.harvestLevel))
    {
      if world.grass {
        var cell := world.Cell(pos);
        var patch := FirstPatch(cell);
        if patch.Some? && harvest < HarvestLimit {
          if patch.value.fullyGrown {
            harvest := harvest + HarvestUnit;
            patch.value.fullyGrown := false;
            if harvest == HarvestLimit {
              state := Pick;
            }
          }
        }
        var shed := FirstShed(cell);
        if shed.Some? {
          shed.value.harvestLevel := shed.value.harvestLevel + harvest;
          harvest := 0;
          state := Drop;
        }
        if energy < 0 {
          world.RemoveAgent(pos, SheepA(this));
          world.Remove(SheepA(this));
        }
      }
    }

    /** Sheep.step: move, then work. */
    method Step(world: World, pick: nat)
      requires Valid()
      requires world.width > 0 && world.height > 0
      requires pick < |Neighbourhood(pos, moore, world.width, world.height)|
      // the sheep, the world, and of the cell it arrives in only the first
      // patch's growth and the first shed's harvest level
      modifies this, world
      modifies PatchSet(Arrival(world, pick))`fullyGrown, ShedSet(Arrival(world, pick))`harvestLevel
      ensures Valid()
      // a sheep always moves: to the first ripe cell, the first closer cell or the drawn one
      ensures var dest := old(Destination(world, pick));
              dest.Some? && pos == dest.value &&
              world.grid == Place(Take(old(world.grid), old(pos), SheepA(this)), pos, SheepA(this))
      // the death branch is never taken
      ensures world.schedule == old(world.schedule)
      ensures var cell := world.Cell(pos);
              var patch := FirstPatch(cell);
              var shed := FirstShed(cell);
              var r := HarvestTask(old(harvest), old(state),
                                   if patch.Some? then Some(old(patch.value.fullyGrown)) else None, shed.Some?);
              if world.grass then
                harvest == r.harvest && state == r.state &&
                (patch.Some? ==> patch.value.fullyGrown == (old(patch.value.fullyGrown) && !r.reaped)) &&
                (shed.Some? ==> shed.value.harvestLevel == old(shed.value.harvestLevel) + r.deposit)
              else
                harvest == old(harvest) && state == old(state) &&
                (patch.Some? ==> patch.value.fullyGrown == old(patch.value.fullyGrown)) &&
                (shed.Some? ==> shed.value.harvestLevel == old(shed.value.harvestLevel))
    {
      TargetMove(world, pick);
      ArrivedFirsts(old(world.grid), old(pos), pos, SheepA(this));
      ghost var cell := world.Cell(pos);
      ghost var patch, shed := FirstPatch(cell), FirstShed(cell);
      assert patch.Some? ==> patch.value.fullyGrown == old(patch.value.fullyGrown);
      assert shed.Some? ==> shed.value.harvestLevel == old(shed.value.harvestLevel);
      Work(world);
    }
  }

  /** The watering mover. */
  class Wolf {
    var pos: Pos
    const moore: bool
    const energy: int
    const target: WaterSource
    var state: TaskState
    var waterStorage: int

    constructor (pos: Pos, moore: bool, energy: int, target: WaterSource)
      ensures this.pos == pos && this.moore == moore && this.energy == energy && this.target == target
      ensures waterStorage == 0 && state == Pick
    {
      this.pos, this.moore, this.energy, this.target := pos, moore, energy, target;
      waterStorage, state := 0, Pick;
    }

    ghost predicate Valid()
      reads this
    {
      0 <= waterStorage <= WaterCap
    }

    /** The cell target_move takes the wolf to, if it moves. */
    ghost function Destination(world: World, pick: nat): Option<Pos>
      reads this, world, world.Objects()
      requires world.width > 0 && world.height > 0
      requires pick < |Neighbourhood(pos, moore, world.width, world.height)|
    {
      var nbrs := Neighbourhood(pos, moore, world.width, world.height);
      RandomWalk.Destination(Some(Water), state, pos, target.pos, nbrs, world.Views(nbrs), pick)
    }

    /** The cell the wolf's move takes it to, as it stands before the move. */
    ghost function Arrival(world: World, pick: nat): seq<Agent>
      reads this, world, world.Objects()
      requires world.width > 0 && world.height > 0
      requires pick < |Neighbourhood(pos, moore, world.width, world.height)|
    {
      var dest := Destination(world, pick);
      world.Cell(if dest.Some? then dest.value else pos)
    }

    /** TargetWalker.target_move for a wolf. */
    method TargetMove(world: World, pick: nat)
      requires world.width > 0 && world.height > 0
      requires pick < |Neighbourhood(pos, moore, world.width, world.height)|
      modifies this`pos, world
      ensures var dest := old(Destination(world, pick));
              pos == (if dest.Some? then dest.value else old(pos)) &&
              world.grid == (if dest.Some? then Place(Take(old(world.grid), old(pos), WolfA(this)), pos, WolfA(this))
                             else old(world.grid))
      ensures world.schedule == old(world.schedule)
      ensures AgentObjects(world.Cell(pos)) <= old(world.Objects()) + {this}
    {
      var nbrs := Neighbourhood(pos, moore, world.width, world.height);
      var next := TargetChoice(Some(Water), state, pos, target.pos, nbrs, world.Views(nbrs), pick);
      if next.Some? {
        world.MoveAgent(WolfA(this), pos, next.value);
        pos := next.value;
      }
      MovedCellObjects(old(world.grid), old(pos), pos, WolfA(this));
    }

    /** The wolf's work in its cell, after moving: decide the state, refill, water. */
    method Work(world: World)
      requires Valid()
      modifies this`waterStorage, this`state, PatchSet(world.Cell(pos))`waterLevel
      ensures Valid()
      ensures var cell := world.Cell(pos);
              var patch := FirstPatch(cell);
              var r := WaterTask(old(waterStorage), Manhattan(target.pos, pos), HasSource(cell), patch.Some?);
              state == r.state && waterStorage == r.storage &&
              (patch.Some? ==> patch.value.waterLevel ==
                                 old(patch.value.waterLevel) + (if r.watered then world.regrowth as real else 0.0))
    {
      if waterStorage < Manhattan(target.pos, pos) {
        state := Pick;
      } else {
        state := Drop;
      }
      var cell := world.Cell(pos);
      if HasSource(cell) {
        waterStorage := WaterCap;
      }
      var patch := FirstPatch(cell);
      if patch.Some? && waterStorage > 0 {
        patch.value.waterLevel := patch.value.waterLevel + world.regrowth as real;
        waterStorage := waterStorage - 1;
      }
    }

    /** Wolf.step: move, then work. */
    method Step(world: World, pick: nat)
      requires Valid()
      requires world.width > 0 && world.height > 0
      requires pick < |Neighbourhood(pos, moore, world.width, world.height)|
      // the wolf, and of the cell it arrives in only the first patch's water
      modifies this, world, PatchSet(Arrival(world, pick))`waterLevel
      ensures Valid()
      ensures var dest := old(Destination(world, pick));
              pos == (if dest.Some? then dest.value else old(pos)) &&
              world.grid == (if dest.Some? then Place(Take(old(world.grid), old(pos), WolfA(this)), pos, WolfA(this))
                             else old(world.grid))
      ensures world.schedule == old(world.schedule)
      ensures var cell := world.Cell(pos);
              var patch := FirstPatch(cell);
              var r := WaterTask(old(waterStorage), Manhattan(target.pos, pos), HasSource(cell), patch.Some?);
              state == r.state && waterStorage == r.storage &&
              (patch.Some? ==> patch.value.waterLevel ==
                                 old(patch.value.waterLevel) + (if r.watered then world.regrowth as real else 0.0))
    {
      TargetMove(world, pick);
      ArrivedFirsts(old(world.grid), old(pos), pos, WolfA(this));
      Work(world);
    }
  }
}
