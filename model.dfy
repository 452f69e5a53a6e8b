/** The simulation model (WolfSheep): building the world.

    Every random draw the constructor makes is an input, bundled in `Draws`:
    the shed's cell, the successive cells the two `while True` siting loops
    draw (finite sequences: a loop that never accepts a draw does not end, so
    the first loop is given a sequence holding an acceptable cell), one draw
    per cell for the grass layout, and one per sheep and per wolf. */
module Model {
  import opened Wrappers
  import opened Grid
  import opened RandomWalk
  import opened Agents

  /** The constructor's parameters. The two reproduction probabilities are
      accepted and never used. */
  datatype Config = Config(
    height: int, width: int,
    initialSheep: int, initialWolves: int,
    sheepReproduce: real, wolfReproduce: real,
    wolfGainFromFood: int,
    grass: bool, regrowth: int,
    sheepGainFromFood: int)

  /** random.choice([True, False]), randrange(grass_regrowth_time) (drawn only
      for an ungrown patch) and random() for the initial water level. */
  datatype PatchDraw = PatchDraw(fullyGrown: bool, countdown: int, fraction: real)

  /** The two randrange draws for a mover's cell and its energy draw. */
  datatype MoverDraw = MoverDraw(pos: Pos, energy: int)

  datatype Draws = Draws(
    shed: Pos,
    source1: seq<Pos>,
    source2: seq<Pos>,
    patch: Pos -> PatchDraw,
    sheep: seq<MoverDraw>,
    wolves: seq<MoverDraw>)

  /** How many times `for i in range(n)` runs. */
  function Times(n: int): nat
  {
    if n > 0 then n else 0
  }

  predicate PatchDrawOk(d: PatchDraw, regrowth: int)
  {
    0.0 <= d.fraction < 1.0 && (!d.fullyGrown ==> 0 <= d.countdown < regrowth)
  }

  /** A drawn cell: x from randrange(width), y from randrange(height), and
      inside the grid, which MultiGrid(height, width) makes height cells wide
      and width cells high (an out-of-range cell would raise on placement). */
  predicate Drawn(p: Pos, config: Config)
  {
    InGrid(p, config.width, config.height) && InGrid(p, config.height, config.width)
  }

  /** The draws are what randrange, choice and random() can return. */
  ghost predicate DrawsOk(config: Config, draws: Draws)
  {
    config.width > 0 && config.height > 0 &&
    Drawn(draws.shed, config) &&
    (forall i :: 0 <= i < |draws.source1| ==> Drawn(draws.source1[i], config)) &&
    (forall i :: 0 <= i < |draws.source2| ==> Drawn(draws.source2[i], config)) &&
    (config.grass ==> forall p :: InGrid(p, config.height, config.width) ==>
                        PatchDrawOk(draws.patch(p), config.regrowth)) &&
    |draws.sheep| == Times(config.initialSheep) &&
    (forall i :: 0 <= i < |draws.sheep| ==>
       Drawn(draws.sheep[i].pos, config) && 0 <= draws.sheep[i].energy < 2 * config.sheepGainFromFood) &&
    |draws.wolves| == Times(config.initialWolves) &&
    (forall i :: 0 <= i < |draws.wolves| ==>
       Drawn(draws.wolves[i].pos, config) && 0 <= draws.wolves[i].energy < 2 * config.wolfGainFromFood)
  }

  /** The siting loops end: the first is given a cell away from the shed, the
      second at least one draw. */
  predicate DrawsEnd(draws: Draws)
  {
    (exists i :: 0 <= i < |draws.source1| && draws.source1[i] != draws.shed) &&
    |draws.source2| > 0
  }

  /** On a grid one cell wide or one cell high every drawn cell is (0, 0),
      where the shed stands, so no draw ends the first siting loop. On a 1x1
      grid the source's `while True` therefore never ends. */
  lemma OneCellNeverSites(config: Config, draws: Draws)
    requires DrawsOk(config, draws) && (config.width == 1 || config.height == 1)
    ensures !DrawsEnd(draws)
  {
    forall i | 0 <= i < |draws.source1|
      ensures draws.source1[i] == draws.shed
    {
    }
  }

  /** Draws exist only for configurations in which none of the constructor's
      randrange calls gets an empty range, where the source raises ValueError:
      the grid is not empty, energies are drawn below a positive bound, and an
      ungrown patch needs a positive regrowth time. */
  lemma DrawsAvoidEmptyRanges(config: Config, draws: Draws)
    requires DrawsOk(config, draws)
    ensures config.width > 0 && config.height > 0
    ensures config.initialSheep > 0 ==> config.sheepGainFromFood > 0
    ensures config.initialWolves > 0 ==> config.wolfGainFromFood > 0
    ensures config.grass && config.regrowth <= 0 ==>
              forall p :: InGrid(p, config.height, config.width) ==> draws.patch(p).fullyGrown
  {
    if config.initialSheep > 0 {
      assert draws.sheep[0].energy < 2 * config.sheepGainFromFood;
    }
    if config.initialWolves > 0 {
      assert draws.wolves[0].energy < 2 * config.wolfGainFromFood;
    }
  }

  // ---------------------------------------------------------------------------
  // Counting agents

  predicate IsShed(a: Agent) { a.ShedA? }
  predicate IsSource(a: Agent) { a.SourceA? }
  predicate IsPatch(a: Agent) { a.GrassA? }
  predicate IsSheep(a: Agent) { a.SheepA? }
  predicate IsWolf(a: Agent) { a.WolfA? }
  predicate IsMover(a: Agent) { a.SheepA? || a.WolfA? }

  /** How many elements of `s` satisfy `p`. */
  function Tally(s: seq<Agent>, p: Agent -> bool): nat
  {
    if |s| == 0 then 0 else Tally(s[..|s| - 1], p) + (if p(s[|s| - 1]) then 1 else 0)
  }

  lemma {:induction false} TallyAppend(s: seq<Agent>, t: seq<Agent>, p: Agent -> bool)
    ensures Tally(s + t, p) == Tally(s, p) + Tally(t, p)
    decreases |t|
  {
    if |t| == 0 {
      assert s + t == s;
    } else {
      assert (s + t)[..|s + t| - 1] == s + t[..|t| - 1];
      assert (s + t)[|s + t| - 1] == t[|t| - 1];
      TallyAppend(s, t[..|t| - 1], p);
    }
  }

  lemma {:induction false} TallyNone(s: seq<Agent>, p: Agent -> bool)
    requires forall i :: 0 <= i < |s| ==> !p(s[i])
    ensures Tally(s, p) == 0
    decreases |s|
  {
    if |s| > 0 {
      TallyNone(s[..|s| - 1], p);
    }
  }

  /** `after` is `before` followed by agents all satisfying `p`. */
  predicate Extends(before: seq<Agent>, after: seq<Agent>, p: Agent -> bool)
  {
    before <= after && forall i :: |before| <= i < |after| ==> p(after[i])
  }

  /** Every cell of `g1` is its cell in `g0` followed by agents satisfying `p`. */
  ghost predicate GridExtends(g0: map<Pos, seq<Agent>>, g1: map<Pos, seq<Agent>>, p: Agent -> bool)
  {
    forall r :: Extends(CellOf(g0, r), CellOf(g1, r), p)
  }

  // ---------------------------------------------------------------------------
  // Siting the water sources

  /** The first siting loop: draw until the cell holds no shed. */
  method SiteFirstSource(world: World, draws: seq<Pos>) returns (k: nat)
    requires exists i :: 0 <= i < |draws| && FirstShed(world.Cell(draws[i])).None?
    ensures k < |draws| && FirstShed(world.Cell(draws[k])).None?
    ensures forall j :: 0 <= j < k ==> FirstShed(world.Cell(draws[j])).Some?
  {
    k := 0;
    while true
      invariant k < |draws|
      invariant forall j :: 0 <= j < k ==> FirstShed(world.Cell(draws[j])).Some?
      decreases |draws| - k
    {
      var thisCell := world.Cell(draws[k]);
      var cell := FirstShed(thisCell);
      if cell.None? {
        break;
      }
      k := k + 1;
    }
  }

  /** The cell passes one of the second siting loop's two tests. */
  predicate SecondSiteAccepts(cell: seq<Agent>)
  {
    FirstShed(cell).None? || !HasSource(cell)
  }

  /** The second siting loop: it stops on a cell without a shed, and also on
      a cell without a water source, so only a cell holding both is redrawn.
      While no cell holds both, it stops on its first draw. */
  method SiteSecondSource(world: World, draws: seq<Pos>) returns (k: nat)
    requires exists i :: 0 <= i < |draws| && SecondSiteAccepts(world.Cell(draws[i]))
    ensures k < |draws| && SecondSiteAccepts(world.Cell(draws[k]))
    ensures forall j :: 0 <= j < k ==> FirstShed(world.Cell(draws[j])).Some? && HasSource(world.Cell(draws[j]))
    ensures (forall p :: SecondSiteAccepts(world.Cell(p))) ==> k == 0
  {
    k := 0;
    while true
      invariant k < |draws|
      invariant forall j :: 0 <= j < k ==> !SecondSiteAccepts(world.Cell(draws[j]))
      decreases |draws| - k
    {
      var thisCell := world.Cell(draws[k]);
      var cell := FirstShed(thisCell);
      if cell.None? {
        break;
      }
      if !HasSource(thisCell) {
        break;
      }
      k := k + 1;
    }
    assert (forall p :: SecondSiteAccepts(world.Cell(p))) ==> SecondSiteAccepts(world.Cell(draws[0]));
  }

  // ---------------------------------------------------------------------------
  // The grass layout

  /** The cell holds a water source or the shed, so no patch is laid there. */
  predicate Special(cell: seq<Agent>)
  {
    HasSource(cell) || FirstShed(cell).Some?
  }

  /** A special cell is left as it was; any other gets one patch at the end. */
  predicate Laid(before: seq<Agent>, after: seq<Agent>)
  {
    if Special(before) then after == before
    else |after| == |before| + 1 && after[..|before|] == before && after[|before|].GrassA?
  }

  /** Every cell of the grid laid, every cell off it untouched. */
  ghost predicate LaidGrid(g0: map<Pos, seq<Agent>>, g: map<Pos, seq<Agent>>, width: int, height: int)
  {
    (forall p :: InGrid(p, width, height) ==> Laid(CellOf(g0, p), CellOf(g, p))) &&
    (forall p :: !InGrid(p, width, height) ==> CellOf(g, p) == CellOf(g0, p))
  }

  /** A new patch's countdown: full when grown, the drawn value otherwise. */
  function InitialCountdown(d: PatchDraw, regrowth: int): (c: int)
    requires PatchDrawOk(d, regrowth)
    ensures d.fullyGrown ==> c == regrowth
    ensures !d.fullyGrown ==> 0 <= c < regrowth
    ensures PatchInv(PatchState(0.0, d.fullyGrown, c), regrowth) <==> regrowth >= 0
  {
    if d.fullyGrown then regrowth else d.countdown
  }

  /** A new patch's water level, random() * grass_regrowth_time. */
  function InitialWater(d: PatchDraw, regrowth: int): real
  {
    d.fraction * (regrowth as real)
  }

  /** A new patch starts with less water than the regrowth time. */
  lemma InitialWaterBelowRegrowth(d: PatchDraw, regrowth: int)
    requires PatchDrawOk(d, regrowth) && regrowth > 0
    ensures 0.0 <= InitialWater(d, regrowth) < regrowth as real
  {
    ScaledBelow(d.fraction, regrowth);
  }

  /** A fraction below one of n stays below n, by induction on n. */
  lemma {:induction false} ScaledBelow(f: real, n: nat)
    requires 0.0 <= f < 1.0
    ensures 0.0 <= f * (n as real)
    ensures n > 0 ==> f * (n as real) < n as real
    decreases n
  {
    if n > 0 {
      ScaledBelow(f, n - 1);
      assert f * (n as real) == f * ((n - 1) as real) + f;
    }
  }

  /** A patch as the layout creates it from its draw `d`. */
  predicate FreshPatch(g: GrassPatch, d: PatchDraw, regrowth: int)
    reads g
  {
    PatchDrawOk(d, regrowth) &&
    g.State() == PatchState(InitialWater(d, regrowth), d.fullyGrown, InitialCountdown(d, regrowth))
  }

  /** A new patch starts inside the regrowth invariant, with less water than
      the regrowth time. */
  lemma FreshPatchInv(g: GrassPatch, d: PatchDraw, regrowth: int)
    requires FreshPatch(g, d, regrowth) && regrowth > 0
    ensures PatchInv(g.State(), regrowth)
    ensures 0.0 <= g.waterLevel < regrowth as real
  {
    InitialWaterBelowRegrowth(d, regrowth);
  }

  lemma Regrouped(a: seq<Agent>, b: seq<Agent>, c: seq<Agent>)
    ensures a + (b + c) == (a + b) + c
  {
  }

  /** Processed so far by the layout's two loops, which run over x, then y. */
  predicate Before(p: Pos, x: int, y: int)
  {
    p.x < x || (p.x == x && p.y < y)
  }

  /** The cells visited so far have been laid; the others are as they were. */
  ghost predicate LaidUpTo(g0: map<Pos, seq<Agent>>, g: map<Pos, seq<Agent>>, x: int, y: int, width: int, height: int)
  {
    (forall p :: InGrid(p, width, height) && Before(p, x, y) ==> Laid(CellOf(g0, p), CellOf(g, p))) &&
    (forall p :: !(InGrid(p, width, height) && Before(p, x, y)) ==> CellOf(g, p) == CellOf(g0, p))
  }

  /** Visiting a cell that is not special: patch `a` is placed on it. */
  lemma LayStepPlace(g0: map<Pos, seq<Agent>>, g: map<Pos, seq<Agent>>, q: Pos, a: Agent, width: int, height: int)
    requires InGrid(q, width, height) && a.GrassA?
    requires LaidUpTo(g0, g, q.x, q.y, width, height)
    requires !Special(CellOf(g, q))
    ensures LaidUpTo(g0, Place(g, q, a), q.x, q.y + 1, width, height)
  {
    assert CellOf(g, q) == CellOf(g0, q);
    assert CellOf(Place(g, q, a), q)[..|CellOf(g0, q)|] == CellOf(g0, q);
  }

  /** Visiting a special cell: nothing changes. */
  lemma LayStepSkip(g0: map<Pos, seq<Agent>>, g: map<Pos, seq<Agent>>, q: Pos, width: int, height: int)
    requires InGrid(q, width, height)
    requires LaidUpTo(g0, g, q.x, q.y, width, height)
    requires Special(CellOf(g, q))
    ensures LaidUpTo(g0, g, q.x, q.y + 1, width, height)
  {
    assert CellOf(g, q) == CellOf(g0, q);
  }

  /** A finished column: up to (x, height) is up to (x + 1, 0). */
  lemma LaidColumn(g0: map<Pos, seq<Agent>>, g: map<Pos, seq<Agent>>, x: int, y: int, width: int, height: int)
    requires y >= height
    requires LaidUpTo(g0, g, x, y, width, height)
    ensures LaidUpTo(g0, g, x + 1, 0, width, height)
  {
    forall p | InGrid(p, width, height)
      ensures Before(p, x, y) <==> Before(p, x + 1, 0)
    {
    }
  }

  /** Creates one patch from its draw and puts it on cell `p` and the schedule. */
  method LayPatch(world: World, p: Pos, d: PatchDraw) returns (a: Agent)
    requires PatchDrawOk(d, world.regrowth)
    modifies world
    ensures a.GrassA? && fresh(a.patch) && a.patch.pos == p && FreshPatch(a.patch, d, world.regrowth)
    ensures world.grid == Place(old(world.grid), p, a) && world.schedule == old(world.schedule) + [a]
  {
    var patch := new GrassPatch(p, d.fullyGrown, InitialCountdown(d, world.regrowth), InitialWater(d, world.regrowth));
    a := GrassA(patch);
    world.PlaceAgent(a, p);
    world.Add(a);
  }

  /** A column of patches made so far, in order, each as the layout creates it. */
  ghost predicate FreshPatches(made: seq<Agent>, draw: Pos -> PatchDraw, regrowth: int)
    reads set i | 0 <= i < |made| :: made[i].Obj()
  {
    forall i :: 0 <= i < |made| ==> made[i].GrassA? && FreshPatch(made[i].patch, draw(made[i].patch.pos), regrowth)
  }

  lemma FreshPatchesAppend(prior: seq<Agent>, a: Agent, draw: Pos -> PatchDraw, regrowth: int)
    requires FreshPatches(prior, draw, regrowth)
    requires a.GrassA? && FreshPatch(a.patch, draw(a.patch.pos), regrowth)
    ensures FreshPatches(prior + [a], draw, regrowth)
  {
    forall i | 0 <= i < |prior + [a]|
      ensures (prior + [a])[i] == if i < |prior| then prior[i] else a
    {
    }
  }

  /** One visit of the layout's inner loop: a patch on cell `p` unless it holds
      a water source or the shed. `added` is the patch laid, if any. */
  method LayCell(world: World, p: Pos, draw: Pos -> PatchDraw, ghost g0: map<Pos, seq<Agent>>, ghost prior: seq<Agent>)
    returns (ghost added: seq<Agent>, ghost at: seq<Pos>)
    requires InGrid(p, world.width, world.height) && PatchDrawOk(draw(p), world.regrowth)
    requires LaidUpTo(g0, world.grid, p.x, p.y, world.width, world.height)
    requires FreshPatches(prior, draw, world.regrowth)
    modifies world
    ensures LaidUpTo(g0, world.grid, p.x, p.y + 1, world.width, world.height)
    ensures world.schedule == old(world.schedule) + added && FreshPatches(prior + added, draw, world.regrowth)
    ensures FixedCells(added, at) && world.grid == PlaceAll(old(world.grid), added, at)
  {
    ghost var g := world.grid;
    var thisCell := world.Cell(p);
    if !Special(thisCell) {
      var a := LayPatch(world, p, draw(p));
      LayStepPlace(g0, g, p, a, world.width, world.height);
      added, at := [a], [p];
      PlaceOne(g, a, p);
      FreshPatchesAppend(prior, a, draw, world.regrowth);
    } else {
      LayStepSkip(g0, g, p, world.width, world.height);
      added, at := [], [];
      assert prior + added == prior;
    }
  }

  /** The inner loop of the layout: column `x`, cell by cell upwards. */
  method LayColumn(world: World, x: int, draw: Pos -> PatchDraw, ghost g0: map<Pos, seq<Agent>>, ghost prior: seq<Agent>)
    returns (ghost made: seq<Agent>, ghost at: seq<Pos>)
    requires 0 <= x < world.width
    requires forall p :: InGrid(p, world.width, world.height) ==> PatchDrawOk(draw(p), world.regrowth)
    requires LaidUpTo(g0, world.grid, x, 0, world.width, world.height)
    requires FreshPatches(prior, draw, world.regrowth)
    modifies world
    ensures LaidUpTo(g0, world.grid, x + 1, 0, world.width, world.height)
    ensures world.schedule == old(world.schedule) + made && FreshPatches(prior + made, draw, world.regrowth)
    ensures FixedCells(made, at) && world.grid == PlaceAll(old(world.grid), made, at)
  {
    made, at := [], [];
    var y := 0;
    while y < world.height
      invariant y == 0 || y <= world.height
      invariant LaidUpTo(g0, world.grid, x, y, world.width, world.height)
      invariant world.schedule == old(world.schedule) + made && FreshPatches(prior + made, draw, world.regrowth)
      invariant FixedCells(made, at) && world.grid == PlaceAll(old(world.grid), made, at)
    {
      ghost var added, cells := LayCell(world, Pos(x, y), draw, g0, prior + made);
      PlaceAllAppend(old(world.grid), made, at, added, cells);
      FixedCellsAppend(made, at, added, cells);
      at := at + cells;
      Regrouped(prior, made, added);
      Regrouped(old(world.schedule), made, added);
      made := made + added;
      y := y + 1;
    }
    LaidColumn(g0, world.grid, x, y, world.width, world.height);
  }

  /** The grass layout: one patch on every cell of the grid that holds neither
      a water source nor the shed; `made` lists the patches in the order laid. */
  method LayGrass(world: World, draw: Pos -> PatchDraw) returns (ghost made: seq<Agent>, ghost at: seq<Pos>)
    requires forall p :: InGrid(p, world.width, world.height) ==> PatchDrawOk(draw(p), world.regrowth)
    modifies world
    ensures LaidGrid(old(world.grid), world.grid, world.width, world.height)
    ensures world.schedule == old(world.schedule) + made
    ensures FreshPatches(made, draw, world.regrowth)
    ensures FixedCells(made, at) && world.grid == PlaceAll(old(world.grid), made, at)
  {
    ghost var g0 := world.grid;
    made, at := [], [];
    var x := 0;
    while x < world.width
      invariant x == 0 || x <= world.width
      invariant LaidUpTo(g0, world.grid, x, 0, world.width, world.height)
      invariant world.schedule == old(world.schedule) + made && FreshPatches(made, draw, world.regrowth)
      invariant FixedCells(made, at) && world.grid == PlaceAll(old(world.grid), made, at)
    {
      ghost var column, cells := LayColumn(world, x, draw, g0, made);
      PlaceAllAppend(old(world.grid), made, at, column, cells);
      FixedCellsAppend(made, at, column, cells);
      at := at + cells;
      Regrouped(old(world.schedule), made, column);
      made := made + column;
      x := x + 1;
    }
    forall p | InGrid(p, world.width, world.height)
      ensures Before(p, x, 0)
    {
    }
  }

  // ---------------------------------------------------------------------------
  // The movers

  /** A wolf heads for ws1 only when ws1 is strictly closer; ties go to ws2. */
  function WolfTarget(ws1: WaterSource, ws2: WaterSource, p: Pos): (r: WaterSource)
    ensures r == ws1 || r == ws2
    ensures Manhattan(r.pos, p) <= Manhattan(ws1.pos, p) && Manhattan(r.pos, p) <= Manhattan(ws2.pos, p)
    ensures Manhattan(ws1.pos, p) == Manhattan(ws2.pos, p) ==> r == ws2
  {
    if Manhattan(ws1.pos, p) < Manhattan(ws2.pos, p) then ws1 else ws2
  }

  /** One sheep: created with its drawn energy, placed, scheduled. */
  method NewSheep(world: World, shed: Shed, d: MoverDraw) returns (a: Agent)
    requires d.energy >= 0
    modifies world
    ensures a.SheepA? && fresh(a.sheep)
    ensures a.sheep.target == shed && a.sheep.pos == d.pos && a.sheep.energy == d.energy && a.sheep.Valid()
    ensures a.sheep.moore && a.sheep.harvest == 0 && a.sheep.state == Drop
    ensures world.grid == Place(old(world.grid), d.pos, a) && world.schedule == old(world.schedule) + [a]
  {
    var sheep := new Sheep(d.pos, true, d.energy, shed);
    a := SheepA(sheep);
    world.PlaceAgent(a, d.pos);
    world.Add(a);
  }

  /** One wolf: created with its drawn energy and the nearer source, placed, scheduled. */
  method NewWolf(world: World, ws1: WaterSource, ws2: WaterSource, d: MoverDraw) returns (a: Agent)
    modifies world
    ensures a.WolfA? && fresh(a.wolf)
    ensures a.wolf.target == WolfTarget(ws1, ws2, d.pos) && a.wolf.pos == d.pos && a.wolf.energy == d.energy
    ensures a.wolf.Valid() && a.wolf.state == Pick && a.wolf.moore && a.wolf.waterStorage == 0
    ensures world.grid == Place(old(world.grid), d.pos, a) && world.schedule == old(world.schedule) + [a]
  {
    var wolf := new Wolf(d.pos, true, d.energy, WolfTarget(ws1, ws2, d.pos));
    a := WolfA(wolf);
    world.PlaceAgent(a, d.pos);
    world.Add(a);
  }

  /** `a` is the sheep made from draw `d`: heading for the shed, on the drawn
      cell with the drawn energy, with the Moore neighbourhood, carrying nothing
      and dropping. */
  ghost predicate SpawnedSheep(a: Agent, d: MoverDraw, shed: Shed)
    reads a.Obj()
  {
    a.SheepA? && a.sheep.target == shed && a.sheep.energy == d.energy && a.sheep.pos == d.pos &&
    a.sheep.Valid() && a.sheep.moore && a.sheep.harvest == 0 && a.sheep.state == Drop
  }

  /** `a` is the wolf made from draw `d`: heading for the nearer source, on the
      drawn cell with the drawn energy, with the Moore neighbourhood, empty and
      picking. */
  ghost predicate SpawnedWolf(a: Agent, d: MoverDraw, ws1: WaterSource, ws2: WaterSource)
    reads a.Obj()
  {
    a.WolfA? && a.wolf.target == WolfTarget(ws1, ws2, d.pos) && a.wolf.energy == d.energy &&
    a.wolf.pos == d.pos && a.wolf.Valid() && a.wolf.state == Pick && a.wolf.moore && a.wolf.waterStorage == 0
  }

  /** Creates one sheep per draw, each heading for the shed; `made` lists them
      in order. */
  method SpawnSheep(world: World, shed: Shed, draws: seq<MoverDraw>) returns (ghost made: seq<Agent>, ghost at: seq<Pos>)
    requires forall i :: 0 <= i < |draws| ==> draws[i].energy >= 0
    modifies world
    ensures world.schedule == old(world.schedule) + made && |made| == |draws|
    ensures GridExtends(old(world.grid), world.grid, IsSheep)
    ensures |at| == |draws| && (forall i {:trigger draws[i]} :: 0 <= i < |draws| ==> at[i] == draws[i].pos)
    ensures world.grid == PlaceAll(old(world.grid), made, at)
    ensures forall i {:trigger draws[i]} :: 0 <= i < |draws| ==> SpawnedSheep(made[i], draws[i], shed)
    ensures forall i :: 0 <= i < |draws| ==> made[i] in CellOf(world.grid, draws[i].pos)
  {
    made, at := [], [];
    var i := 0;
    while i < |draws|
      invariant 0 <= i <= |draws| && |made| == i
      invariant world.schedule == old(world.schedule) + made
      invariant |at| == i && (forall j {:trigger draws[j]} :: 0 <= j < i ==> at[j] == draws[j].pos)
      invariant world.grid == PlaceAll(old(world.grid), made, at)
      invariant forall j {:trigger draws[j]} :: 0 <= j < i ==> SpawnedSheep(made[j], draws[j], shed)
    {
      ghost var g := world.grid;
      var a := NewSheep(world, shed, draws[i]);
      PlaceOne(g, a, draws[i].pos);
      PlaceAllAppend(old(world.grid), made, at, [a], [draws[i].pos]);
      made, at := made + [a], at + [draws[i].pos];
      i := i + 1;
    }
    forall j | 0 <= j < |made|
      ensures IsSheep(made[j])
    {
      assert SpawnedSheep(made[j], draws[j], shed);
    }
    PlacedAllOf(old(world.grid), made, at, IsSheep);
  }

  /** Creates one wolf per draw, each heading for the nearer source (ws2 on a
      tie); `made` lists them in order. */
  method SpawnWolves(world: World, ws1: WaterSource, ws2: WaterSource, draws: seq<MoverDraw>)
    returns (ghost made: seq<Agent>, ghost at: seq<Pos>)
    modifies world
    ensures world.schedule == old(world.schedule) + made && |made| == |draws|
    ensures GridExtends(old(world.grid), world.grid, IsWolf)
    ensures |at| == |draws| && (forall i {:trigger draws[i]} :: 0 <= i < |draws| ==> at[i] == draws[i].pos)
    ensures world.grid == PlaceAll(old(world.grid), made, at)
    ensures forall i {:trigger draws[i]} :: 0 <= i < |draws| ==> SpawnedWolf(made[i], draws[i], ws1, ws2)
    ensures forall i :: 0 <= i < |draws| ==> made[i] in CellOf(world.grid, draws[i].pos)
  {
    made, at := [], [];
    var i := 0;
    while i < |draws|
      invariant 0 <= i <= |draws| && |made| == i
      invariant world.schedule == old(world.schedule) + made
      invariant |at| == i && (forall j {:trigger draws[j]} :: 0 <= j < i ==> at[j] == draws[j].pos)
      invariant world.grid == PlaceAll(old(world.grid), made, at)
      invariant forall j {:trigger draws[j]} :: 0 <= j < i ==> SpawnedWolf(made[j], draws[j], ws1, ws2)
    {
      ghost var g := world.grid;
      var a := NewWolf(world, ws1, ws2, draws[i]);
      PlaceOne(g, a, draws[i].pos);
      PlaceAllAppend(old(world.grid), made, at, [a], [draws[i].pos]);
      made, at := made + [a], at + [draws[i].pos];
      i := i + 1;
    }
    forall j | 0 <= j < |made|
      ensures IsWolf(made[j])
    {
      assert SpawnedWolf(made[j], draws[j], ws1, ws2);
    }
    PlacedAllOf(old(world.grid), made, at, IsWolf);
  }

  /** A list grows by agents of one kind. */
  lemma AppendedExtends(before: seq<Agent>, made: seq<Agent>, p: Agent -> bool)
    requires forall i :: 0 <= i < |made| ==> p(made[i])
    ensures Extends(before, before + made, p)
  {
    forall i | |before| <= i < |before + made|
      ensures p((before + made)[i])
    {
      assert (before + made)[i] == made[i - |before|];
    }
  }

  // ---------------------------------------------------------------------------
  // Tallies over extended lists

  lemma ExtendedTally(before: seq<Agent>, after: seq<Agent>, q: Agent -> bool)
    requires before <= after
    ensures (forall i :: |before| <= i < |after| ==> !q(after[i])) ==> Tally(after, q) == Tally(before, q)
    ensures (forall i :: |before| <= i < |after| ==> q(after[i])) ==>
              Tally(after, q) == Tally(before, q) + |after| - |before|
  {
    var tail := after[|before|..];
    assert after == before + tail;
    TallyAppend(before, tail, q);
    if forall i :: |before| <= i < |after| ==> !q(after[i]) {
      forall j | 0 <= j < |tail|
        ensures !q(tail[j])
      {
        assert tail[j] == after[|before| + j];
      }
      TallyNone(tail, q);
    }
    if forall i :: |before| <= i < |after| ==> q(after[i]) {
      forall j | 0 <= j < |tail|
        ensures q(tail[j])
      {
        assert tail[j] == after[|before| + j];
      }
      TallyAll(tail, q);
    }
  }

  lemma {:induction false} TallyAll(s: seq<Agent>, p: Agent -> bool)
    requires forall i :: 0 <= i < |s| ==> p(s[i])
    ensures Tally(s, p) == |s|
    decreases |s|
  {
    if |s| > 0 {
      TallyAll(s[..|s| - 1], p);
    }
  }

  /** Laying a cell adds one patch to it exactly when it was not special. */
  lemma LaidTally(before: seq<Agent>, after: seq<Agent>)
    requires Laid(before, after)
    ensures Tally(after, IsPatch) == Tally(before, IsPatch) + (if Special(before) then 0 else 1)
  {
    if !Special(before) {
      assert after[..|after| - 1] == before;
    }
  }

  // ---------------------------------------------------------------------------
  // The grid as a list of agents placed in turn

  /** The cell of an agent that never moves: the shed, a source or a patch. */
  function Site(a: Agent): Pos
    requires !IsMover(a)
  {
    match a
    case GrassA(g) => g.pos
    case SourceA(ws) => ws.pos
    case ShedA(sh) => sh.pos
  }

  /** The cell an agent's own fields record. */
  ghost function Where(a: Agent): Pos
    reads a.Obj()
  {
    match a
    case SheepA(s) => s.pos
    case WolfA(w) => w.pos
    case _ => Site(a)
  }

  /** `at` lists the cells the agents of `s` record, in order. */
  ghost predicate OwnCells(s: seq<Agent>, at: seq<Pos>)
    reads set i | 0 <= i < |s| :: s[i].Obj()
  {
    |at| == |s| && forall i :: 0 <= i < |s| ==> at[i] == Where(s[i])
  }

  lemma OwnCellsAppend(s: seq<Agent>, at: seq<Pos>, t: seq<Agent>, bt: seq<Pos>)
    requires OwnCells(s, at) && OwnCells(t, bt)
    ensures OwnCells(s + t, at + bt)
  {
    forall i | 0 <= i < |s + t|
      ensures (s + t)[i] == if i < |s| then s[i] else t[i - |s|]
      ensures (at + bt)[i] == if i < |s| then at[i] else bt[i - |s|]
    {
    }
  }

  /** place_agent for each agent of `s` in turn, on the matching cell of `at`. */
  function PlaceAll(g: map<Pos, seq<Agent>>, s: seq<Agent>, at: seq<Pos>): map<Pos, seq<Agent>>
    requires |s| == |at|
    decreases |s|
  {
    if |s| == 0 then g
    else Place(PlaceAll(g, s[..|s| - 1], at[..|at| - 1]), at[|at| - 1], s[|s| - 1])
  }

  /** Placing two lists in turn is placing their concatenation. */
  lemma {:induction false} PlaceAllAppend(g: map<Pos, seq<Agent>>, s: seq<Agent>, at: seq<Pos>,
                                          t: seq<Agent>, bt: seq<Pos>)
    requires |s| == |at| && |t| == |bt|
    ensures PlaceAll(g, s + t, at + bt) == PlaceAll(PlaceAll(g, s, at), t, bt)
    decreases |t|
  {
    if |t| > 0 {
      var n := |t| - 1;
      assert (s + t)[..|s + t| - 1] == s + t[..n];
      assert (at + bt)[..|at + bt| - 1] == at + bt[..n];
      PlaceAllAppend(g, s, at, t[..n], bt[..n]);
    } else {
      assert s + t == s && at + bt == at;
    }
  }

  /** `s` holds no movers and `at` lists their cells, in order. */
  predicate FixedCells(s: seq<Agent>, at: seq<Pos>)
  {
    |at| == |s| && forall i :: 0 <= i < |s| ==> !IsMover(s[i]) && at[i] == Site(s[i])
  }

  lemma FixedCellsAppend(s: seq<Agent>, at: seq<Pos>, t: seq<Agent>, bt: seq<Pos>)
    requires FixedCells(s, at) && FixedCells(t, bt)
    ensures FixedCells(s + t, at + bt)
  {
    forall i | 0 <= i < |s + t|
      ensures (s + t)[i] == if i < |s| then s[i] else t[i - |s|]
      ensures (at + bt)[i] == if i < |s| then at[i] else bt[i - |s|]
    {
    }
  }

  lemma FixedCellsOwn(s: seq<Agent>, at: seq<Pos>)
    requires FixedCells(s, at)
    ensures OwnCells(s, at)
  {
  }

  /** One agent placed on cell `p`. */
  lemma PlaceOne(g: map<Pos, seq<Agent>>, a: Agent, p: Pos)
    ensures PlaceAll(g, [a], [p]) == Place(g, p, a)
  {
    assert [a][..0] == [] && [p][..0] == [];
  }

  /** After placing `s` on `at`, each `s[i]` stands in cell `at[i]`, every cell
      still holds what it held, and whatever a cell gained came from `s`. */
  lemma {:induction false} PlaceAllCells(g: map<Pos, seq<Agent>>, s: seq<Agent>, at: seq<Pos>)
    requires |s| == |at|
    ensures forall i :: 0 <= i < |s| ==> s[i] in CellOf(PlaceAll(g, s, at), at[i])
    ensures forall q :: CellOf(g, q) <= CellOf(PlaceAll(g, s, at), q)
    ensures forall q, k :: |CellOf(g, q)| <= k < |CellOf(PlaceAll(g, s, at), q)| ==>
              CellOf(PlaceAll(g, s, at), q)[k] in s
    decreases |s|
  {
    if |s| > 0 {
      var n := |s| - 1;
      var g1 := PlaceAll(g, s[..n], at[..n]);
      var g2 := PlaceAll(g, s, at);
      PlaceAllCells(g, s[..n], at[..n]);
      assert g2 == Place(g1, at[n], s[n]);
      forall q
        ensures CellOf(g1, q) <= CellOf(g2, q)
      {
        PlacedCell(g1, at[n], s[n], q);
      }
      forall i | 0 <= i < |s|
        ensures s[i] in CellOf(g2, at[i])
      {
        if i < n {
          assert s[..n][i] == s[i] && at[..n][i] == at[i];
        } else {
          PlacedCell(g1, at[n], s[n], at[n]);
        }
      }
      forall q, k | |CellOf(g, q)| <= k < |CellOf(g2, q)|
        ensures CellOf(g2, q)[k] in s
      {
        PlacedCell(g1, at[n], s[n], q);
        if k < |CellOf(g1, q)| {
          assert CellOf(g1, q)[k] in s[..n];
        }
      }
    }
  }

  /** Placing agents on cells of the grid leaves every cell off it as it was. */
  lemma {:induction false} PlaceAllOffGrid(g: map<Pos, seq<Agent>>, s: seq<Agent>, at: seq<Pos>, width: int, height: int)
    requires |s| == |at| && forall i :: 0 <= i < |at| ==> InGrid(at[i], width, height)
    ensures forall q :: !InGrid(q, width, height) ==> CellOf(PlaceAll(g, s, at), q) == CellOf(g, q)
    decreases |s|
  {
    if |s| > 0 {
      var n := |s| - 1;
      forall i | 0 <= i < n
        ensures InGrid(at[..n][i], width, height)
      {
        assert at[..n][i] == at[i];
      }
      PlaceAllOffGrid(g, s[..n], at[..n], width, height);
    }
  }

  /** Placing agents of one kind: every cell is extended by that kind only,
      and each agent stands in its cell. */
  lemma PlacedAllOf(g: map<Pos, seq<Agent>>, s: seq<Agent>, at: seq<Pos>, p: Agent -> bool)
    requires |s| == |at| && forall i :: 0 <= i < |s| ==> p(s[i])
    ensures GridExtends(g, PlaceAll(g, s, at), p)
    ensures forall i :: 0 <= i < |s| ==> s[i] in CellOf(PlaceAll(g, s, at), at[i])
  {
    var g1 := PlaceAll(g, s, at);
    PlaceAllCells(g, s, at);
    forall r
      ensures Extends(CellOf(g, r), CellOf(g1, r), p)
    {
      forall k | |CellOf(g, r)| <= k < |CellOf(g1, r)|
        ensures p(CellOf(g1, r)[k])
      {
        var i :| 0 <= i < |s| && s[i] == CellOf(g1, r)[k];
      }
    }
  }

  /** Placing on an empty grid: whatever a cell holds was placed. */
  lemma PlacedOnEmpty(s: seq<Agent>, at: seq<Pos>)
    requires |s| == |at|
    ensures forall i :: 0 <= i < |s| ==> s[i] in CellOf(PlaceAll(map[], s, at), at[i])
    ensures forall q, a :: a in CellOf(PlaceAll(map[], s, at), q) ==> a in s
  {
    var g := PlaceAll(map[], s, at);
    PlaceAllCells(map[], s, at);
    forall q, a | a in CellOf(g, q)
      ensures a in s
    {
      var k :| 0 <= k < |CellOf(g, q)| && CellOf(g, q)[k] == a;
      assert |CellOf(map[], q)| == 0;
    }
  }

  /** A grid built by placing a schedule's agents on their own cells: every
      scheduled agent stands in its cell, and every agent on the grid is
      scheduled. */
  lemma GridOfSchedule(g: map<Pos, seq<Agent>>, s: seq<Agent>, at: seq<Pos>)
    requires OwnCells(s, at) && g == PlaceAll(map[], s, at)
    ensures forall i :: 0 <= i < |s| ==> s[i] in CellOf(g, Where(s[i]))
    ensures forall q, a :: a in CellOf(g, q) ==> a in s
  {
    PlacedOnEmpty(s, at);
  }

  // ---------------------------------------------------------------------------
  // The model

  /** The grid once the shed and the two sources stand on an empty one. */
  function SitedGrid(shed: Shed, ws1: WaterSource, ws2: WaterSource): map<Pos, seq<Agent>>
  {
    Place(Place(Place(map[], shed.pos, ShedA(shed)), ws1.pos, SourceA(ws1)), ws2.pos, SourceA(ws2))
  }

  /** The sited grid is the three sited agents placed in turn. */
  lemma SitedPlaced(shed: Shed, ws1: WaterSource, ws2: WaterSource)
    ensures FixedCells([ShedA(shed), SourceA(ws1), SourceA(ws2)], [shed.pos, ws1.pos, ws2.pos])
    ensures SitedGrid(shed, ws1, ws2) ==
            PlaceAll(map[], [ShedA(shed), SourceA(ws1), SourceA(ws2)], [shed.pos, ws1.pos, ws2.pos])
  {
    var s := [ShedA(shed), SourceA(ws1), SourceA(ws2)];
    var at := [shed.pos, ws1.pos, ws2.pos];
    assert s[..2][..1] == [ShedA(shed)] && at[..2][..1] == [shed.pos];
    PlaceOne(map[], ShedA(shed), shed.pos);
  }

  /** What one more occupant at the end of a cell changes. */
  lemma Appended(c: seq<Agent>, a: Agent)
    ensures HasSource(c + [a]) <==> HasSource(c) || a.SourceA?
    ensures FirstShed(c + [a]).Some? <==> FirstShed(c).Some? || a.ShedA?
    ensures Tally(c + [a], IsPatch) == Tally(c, IsPatch) + (if a.GrassA? then 1 else 0)
  {
    assert (c + [a])[..|c|] == c;
    assert (c + [a])[|c|] == a;
    if HasSource(c) {
      var b :| b in c && b.SourceA?;
      assert b in c + [a];
    }
    if HasSource(c + [a]) {
      var b :| b in c + [a] && b.SourceA?;
      if b != a {
        assert b in c;
      }
    }
  }

  lemma PlacedCell(g: map<Pos, seq<Agent>>, q: Pos, a: Agent, p: Pos)
    ensures CellOf(Place(g, q, a), p) == if p == q then CellOf(g, p) + [a] else CellOf(g, p)
  {
  }

  /** On the sited grid no cell holds a patch, and the special cells are
      exactly the three sited ones. */
  lemma SitedCells(shed: Shed, ws1: WaterSource, ws2: WaterSource, p: Pos)
    ensures Tally(CellOf(SitedGrid(shed, ws1, ws2), p), IsPatch) == 0
    ensures Special(CellOf(SitedGrid(shed, ws1, ws2), p)) <==> p == shed.pos || p == ws1.pos || p == ws2.pos
  {
    var g0: map<Pos, seq<Agent>> := map[];
    var g1 := Place(g0, shed.pos, ShedA(shed));
    var g2 := Place(g1, ws1.pos, SourceA(ws1));
    var g3 := Place(g2, ws2.pos, SourceA(ws2));
    assert CellOf(g0, p) == [];
    assert !HasSource([]) && FirstShed([]).None? && Tally([], IsPatch) == 0;
    PlacedCell(g0, shed.pos, ShedA(shed), p);
    PlacedCell(g1, ws1.pos, SourceA(ws1), p);
    PlacedCell(g2, ws2.pos, SourceA(ws2), p);
    if p == shed.pos {
      Appended(CellOf(g0, p), ShedA(shed));
    }
    if p == ws1.pos {
      Appended(CellOf(g1, p), SourceA(ws1));
    }
    if p == ws2.pos {
      Appended(CellOf(g2, p), SourceA(ws2));
    }
  }

  /** The shed and the two water sources: the shed on its drawn cell, ws1 on the
      first draw away from the shed, ws2 on its first draw. */
  method SiteResources(config: Config, draws: Draws) returns (world: World, shed: Shed, ws1: WaterSource, ws2: WaterSource)
    requires DrawsEnd(draws)
    ensures fresh(world)
    // MultiGrid(self.height, self.width): the grid's width is the height parameter
    ensures world.width == config.height && world.height == config.width
    ensures world.grass == config.grass && world.regrowth == config.regrowth
    ensures shed.pos == draws.shed && ws2.pos == draws.source2[0] && ws1.pos != shed.pos
    ensures exists k :: 0 <= k < |draws.source1| && ws1.pos == draws.source1[k] &&
              forall j :: 0 <= j < k ==> draws.source1[j] == draws.shed
    ensures world.grid == SitedGrid(shed, ws1, ws2)
    ensures world.schedule == [ShedA(shed), SourceA(ws1), SourceA(ws2)]
  {
    world := new World(config.height, config.width, config.grass, config.regrowth);
    shed := new Shed(draws.shed);
    world.PlaceAgent(ShedA(shed), shed.pos);
    world.Add(ShedA(shed));
    assert world.schedule == [ShedA(shed)];

    ShedOnly(shed);
    var k1 := SiteFirstSource(world, draws.source1);
    ws1 := NewSource(world, draws.source1[k1]);

    SecondSiteAlwaysAccepts(shed, ws1);
    assert SecondSiteAccepts(world.Cell(draws.source2[0]));
    var k2 := SiteSecondSource(world, draws.source2);
    ws2 := NewSource(world, draws.source2[k2]);
  }

  /** One water source: created on `p`, placed, scheduled. */
  method NewSource(world: World, p: Pos) returns (ws: WaterSource)
    modifies world
    ensures fresh(ws) && ws.pos == p
    ensures world.grid == Place(old(world.grid), p, SourceA(ws)) && world.schedule == old(world.schedule) + [SourceA(ws)]
  {
    ws := new WaterSource(p);
    world.PlaceAgent(SourceA(ws), p);
    world.Add(SourceA(ws));
  }

  /** With only the shed placed, the shed is found exactly on its own cell. */
  lemma ShedOnly(shed: Shed)
    ensures forall p :: FirstShed(CellOf(Place(map[], shed.pos, ShedA(shed)), p)).Some? <==> p == shed.pos
  {
    forall p
      ensures FirstShed(CellOf(Place(map[], shed.pos, ShedA(shed)), p)).Some? <==> p == shed.pos
    {
      PlacedCell(map[], shed.pos, ShedA(shed), p);
      if p == shed.pos {
        assert CellOf(Place(map[], shed.pos, ShedA(shed)), p) == [ShedA(shed)];
      }
    }
  }

  /** Once the shed and the first source stand on different cells, every cell
      passes the second siting loop's test: none holds both. */
  lemma SecondSiteAlwaysAccepts(shed: Shed, ws1: WaterSource)
    requires ws1.pos != shed.pos
    ensures forall p :: SecondSiteAccepts(CellOf(Place(Place(map[], shed.pos, ShedA(shed)), ws1.pos, SourceA(ws1)), p))
  {
    var g1 := Place(map[], shed.pos, ShedA(shed));
    forall p
      ensures SecondSiteAccepts(CellOf(Place(g1, ws1.pos, SourceA(ws1)), p))
    {
      PlacedCell(map[], shed.pos, ShedA(shed), p);
      PlacedCell(g1, ws1.pos, SourceA(ws1), p);
      if p == shed.pos {
        assert CellOf(Place(g1, ws1.pos, SourceA(ws1)), p) == [ShedA(shed)];
      } else if p == ws1.pos {
        assert CellOf(Place(g1, ws1.pos, SourceA(ws1)), p) == [SourceA(ws1)];
      } else {
        assert CellOf(Place(g1, ws1.pos, SourceA(ws1)), p) == [];
      }
    }
  }

  /** One cell through the layout and the movers: it keeps what it held, and
      holds one patch exactly when one was laid on it. */
  lemma PopulatedCell(c3: seq<Agent>, c4: seq<Agent>, c5: seq<Agent>, c6: seq<Agent>, laid: bool)
    requires laid ==> Laid(c3, c4)
    requires !laid ==> c4 == c3
    requires Extends(c4, c5, IsSheep) && Extends(c5, c6, IsWolf)
    ensures Tally(c6, IsPatch) == Tally(c3, IsPatch) + (if laid && !Special(c3) then 1 else 0)
    ensures c3 <= c6
  {
    if laid {
      LaidTally(c3, c4);
    }
    ExtendedTally(c4, c5, IsPatch);
    ExtendedTally(c5, c6, IsPatch);
  }

  /** The finished layout: one patch on each cell of the grid when grass is
      on, except the three sited cells, which hold none; and each cell still
      holds what the siting put there. */
  lemma PopulatedCells(shed: Shed, ws1: WaterSource, ws2: WaterSource, grass: bool, width: int, height: int,
                       g4: map<Pos, seq<Agent>>, g5: map<Pos, seq<Agent>>, g6: map<Pos, seq<Agent>>)
    requires grass ==> LaidGrid(SitedGrid(shed, ws1, ws2), g4, width, height)
    requires !grass ==> g4 == SitedGrid(shed, ws1, ws2)
    requires GridExtends(g4, g5, IsSheep) && GridExtends(g5, g6, IsWolf)
    ensures forall p :: InGrid(p, width, height) ==>
              Tally(CellOf(g6, p), IsPatch) == if grass && p != shed.pos && p != ws1.pos && p != ws2.pos then 1 else 0
    ensures forall p :: CellOf(SitedGrid(shed, ws1, ws2), p) <= CellOf(g6, p)
  {
    forall p
      ensures InGrid(p, width, height) ==>
                Tally(CellOf(g6, p), IsPatch) == if grass && p != shed.pos && p != ws1.pos && p != ws2.pos then 1 else 0
      ensures CellOf(SitedGrid(shed, ws1, ws2), p) <= CellOf(g6, p)
    {
      SitedCells(shed, ws1, ws2, p);
      PopulatedCell(CellOf(SitedGrid(shed, ws1, ws2), p), CellOf(g4, p), CellOf(g5, p), CellOf(g6, p),
                    grass && InGrid(p, width, height));
    }
  }

  /** The sited objects stand in their cells. */
  lemma SitedCellsHold(shed: Shed, ws1: WaterSource, ws2: WaterSource)
    ensures ShedA(shed) in CellOf(SitedGrid(shed, ws1, ws2), shed.pos)
    ensures SourceA(ws1) in CellOf(SitedGrid(shed, ws1, ws2), ws1.pos)
    ensures SourceA(ws2) in CellOf(SitedGrid(shed, ws1, ws2), ws2.pos)
  {
    var g1 := Place(map[], shed.pos, ShedA(shed));
    var g2 := Place(g1, ws1.pos, SourceA(ws1));
    PlacedCell(g1, ws1.pos, SourceA(ws1), shed.pos);
    PlacedCell(g2, ws2.pos, SourceA(ws2), shed.pos);
    PlacedCell(g2, ws2.pos, SourceA(ws2), ws1.pos);
  }

  /** A grid that keeps every sited cell as a prefix still holds the sited objects. */
  lemma SitedHold(shed: Shed, ws1: WaterSource, ws2: WaterSource, g: map<Pos, seq<Agent>>)
    requires CellOf(SitedGrid(shed, ws1, ws2), shed.pos) <= CellOf(g, shed.pos)
    requires CellOf(SitedGrid(shed, ws1, ws2), ws1.pos) <= CellOf(g, ws1.pos)
    requires CellOf(SitedGrid(shed, ws1, ws2), ws2.pos) <= CellOf(g, ws2.pos)
    ensures ShedA(shed) in CellOf(g, shed.pos)
    ensures SourceA(ws1) in CellOf(g, ws1.pos) && SourceA(ws2) in CellOf(g, ws2.pos)
  {
    SitedCellsHold(shed, ws1, ws2);
  }

  lemma TallyThree(a: Agent, b: Agent, c: Agent, p: Agent -> bool)
    ensures Tally([a, b, c], p) == (if p(a) then 1 else 0) + (if p(b) then 1 else 0) + (if p(c) then 1 else 0)
  {
    assert [a][..0] == [];
    assert Tally([a], p) == (if p(a) then 1 else 0);
    assert [a, b][..1] == [a];
    assert Tally([a, b], p) == Tally([a], p) + (if p(b) then 1 else 0);
    assert [a, b, c][..2] == [a, b];
  }

  /** A list grown in three segments, each wholly of kind `q` or wholly not. */
  lemma SegmentTallies(s3: seq<Agent>, s4: seq<Agent>, s5: seq<Agent>, s6: seq<Agent>, q: Agent -> bool,
                       in4: bool, in5: bool, in6: bool)
    requires s3 <= s4 && s4 <= s5 && s5 <= s6
    requires forall i :: |s3| <= i < |s4| ==> q(s4[i]) == in4
    requires forall i :: |s4| <= i < |s5| ==> q(s5[i]) == in5
    requires forall i :: |s5| <= i < |s6| ==> q(s6[i]) == in6
    ensures Tally(s6, q) == Tally(s3, q) + (if in4 then |s4| - |s3| else 0) +
                            (if in5 then |s5| - |s4| else 0) + (if in6 then |s6| - |s5| else 0)
  {
    ExtendedTally(s3, s4, q);
    ExtendedTally(s4, s5, q);
    ExtendedTally(s5, s6, q);
  }

  /** The finished schedule: the three sited agents, then patches, sheep and
      wolves, so one shed, two sources, and one sheep and one wolf per draw. */
  lemma PopulatedSchedule(shed: Shed, ws1: WaterSource, ws2: WaterSource, grass: bool,
                          s4: seq<Agent>, s5: seq<Agent>, s6: seq<Agent>)
    requires grass ==> Extends([ShedA(shed), SourceA(ws1), SourceA(ws2)], s4, IsPatch)
    requires !grass ==> s4 == [ShedA(shed), SourceA(ws1), SourceA(ws2)]
    requires Extends(s4, s5, IsSheep) && Extends(s5, s6, IsWolf)
    ensures |s6| >= 3 && s6[..3] == [ShedA(shed), SourceA(ws1), SourceA(ws2)]
    ensures Tally(s6, IsShed) == 1 && Tally(s6, IsSource) == 2
    ensures Tally(s6, IsSheep) == |s5| - |s4| && Tally(s6, IsWolf) == |s6| - |s5|
  {
    var s3 := [ShedA(shed), SourceA(ws1), SourceA(ws2)];
    assert Tally(s6, IsShed) == 1 by {
      TallyThree(ShedA(shed), SourceA(ws1), SourceA(ws2), IsShed);
      SegmentTallies(s3, s4, s5, s6, IsShed, false, false, false);
    }
    assert Tally(s6, IsSource) == 2 by {
      TallyThree(ShedA(shed), SourceA(ws1), SourceA(ws2), IsSource);
      SegmentTallies(s3, s4, s5, s6, IsSource, false, false, false);
    }
    assert Tally(s6, IsSheep) == |s5| - |s4| by {
      TallyThree(ShedA(shed), SourceA(ws1), SourceA(ws2), IsSheep);
      SegmentTallies(s3, s4, s5, s6, IsSheep, false, true, false);
    }
    assert Tally(s6, IsWolf) == |s6| - |s5| by {
      TallyThree(ShedA(shed), SourceA(ws1), SourceA(ws2), IsWolf);
      SegmentTallies(s3, s4, s5, s6, IsWolf, false, false, true);
    }
    assert s6[..|s5|] == s5 && s5[..|s4|] == s4 && s4[..3] == s3;
  }

  /** Where each kind of agent sits in the finished schedule. */
  lemma ScheduleRegions(shed: Shed, ws1: WaterSource, ws2: WaterSource, grass: bool,
                        s4: seq<Agent>, s5: seq<Agent>, s6: seq<Agent>)
    requires grass ==> Extends([ShedA(shed), SourceA(ws1), SourceA(ws2)], s4, IsPatch)
    requires !grass ==> s4 == [ShedA(shed), SourceA(ws1), SourceA(ws2)]
    requires Extends(s4, s5, IsSheep) && Extends(s5, s6, IsWolf)
    ensures forall i :: 0 <= i < |s6| && s6[i].GrassA? ==> 3 <= i < |s4| && s6[i] == s4[i]
    ensures forall i :: 0 <= i < |s6| && s6[i].SheepA? ==> |s4| <= i < |s5| && s6[i] == s5[i]
    ensures forall i :: 0 <= i < |s6| && s6[i].WolfA? ==> |s5| <= i
  {
    assert s6[..|s5|] == s5 && s5[..|s4|] == s4;
    assert forall i :: 0 <= i < |s5| ==> s6[i] == s5[i];
    assert forall i :: 0 <= i < |s4| ==> s5[i] == s4[i];
  }

  /** The schedule's patches are as the layout makes them, its sheep head for
      the shed and its wolves for the nearer source, all in a valid state. */
  ghost predicate Roster(s: seq<Agent>, shed: Shed, ws1: WaterSource, ws2: WaterSource,
                         draw: Pos -> PatchDraw, regrowth: int)
    reads set i | 0 <= i < |s| :: s[i].Obj()
  {
    (forall i :: 0 <= i < |s| && s[i].GrassA? ==> FreshPatch(s[i].patch, draw(s[i].patch.pos), regrowth)) &&
    (forall i :: 0 <= i < |s| && s[i].SheepA? ==> s[i].sheep.target == shed && s[i].sheep.Valid()) &&
    (forall i :: 0 <= i < |s| && s[i].WolfA? ==>
       s[i].wolf.target == WolfTarget(ws1, ws2, s[i].wolf.pos) && s[i].wolf.Valid() && s[i].wolf.state == Pick &&
       s[i].wolf.energy >= 0)
  }

  /** The sited agents followed by freshly laid patches. */
  lemma LaidRoster(laid: seq<Agent>, shed: Shed, ws1: WaterSource, ws2: WaterSource,
                   draw: Pos -> PatchDraw, regrowth: int)
    requires FreshPatches(laid, draw, regrowth)
    ensures Roster([ShedA(shed), SourceA(ws1), SourceA(ws2)] + laid, shed, ws1, ws2, draw, regrowth)
    ensures forall i :: 0 <= i < |laid| ==> IsPatch(laid[i])
  {
    var s := [ShedA(shed), SourceA(ws1), SourceA(ws2)] + laid;
    forall i | 3 <= i < |s|
      ensures s[i] == laid[i - 3]
    {
    }
  }

  /** The sheep SpawnSheep made. */
  lemma SheepRoster(made: seq<Agent>, at: seq<Pos>, draws: seq<MoverDraw>, shed: Shed, ws1: WaterSource, ws2: WaterSource,
                    draw: Pos -> PatchDraw, regrowth: int)
    requires |made| == |draws| && forall i :: 0 <= i < |draws| ==> SpawnedSheep(made[i], draws[i], shed)
    requires |at| == |draws| && forall i :: 0 <= i < |draws| ==> at[i] == draws[i].pos
    ensures Roster(made, shed, ws1, ws2, draw, regrowth) && OwnCells(made, at)
    ensures forall i :: 0 <= i < |made| ==> IsSheep(made[i])
  {
  }

  /** The wolves SpawnWolves made, from non-negative energy draws. */
  lemma WolfRoster(made: seq<Agent>, at: seq<Pos>, draws: seq<MoverDraw>, shed: Shed, ws1: WaterSource, ws2: WaterSource,
                   draw: Pos -> PatchDraw, regrowth: int)
    requires |made| == |draws| && forall i :: 0 <= i < |draws| ==> SpawnedWolf(made[i], draws[i], ws1, ws2)
    requires forall i :: 0 <= i < |draws| ==> draws[i].energy >= 0
    requires |at| == |draws| && forall i :: 0 <= i < |draws| ==> at[i] == draws[i].pos
    ensures Roster(made, shed, ws1, ws2, draw, regrowth) && OwnCells(made, at)
    ensures forall i :: 0 <= i < |made| ==> IsWolf(made[i])
  {
  }

  lemma RosterAppend(s: seq<Agent>, t: seq<Agent>, shed: Shed, ws1: WaterSource, ws2: WaterSource,
                     draw: Pos -> PatchDraw, regrowth: int)
    requires Roster(s, shed, ws1, ws2, draw, regrowth) && Roster(t, shed, ws1, ws2, draw, regrowth)
    ensures Roster(s + t, shed, ws1, ws2, draw, regrowth)
  {
    var u := s + t;
    forall i | 0 <= i < |u|
      ensures u[i] == if i < |s| then s[i] else t[i - |s|]
    {
    }
  }

  /** The schedule with the spawned sheep and wolves after what it held. */
  lemma MoversJoined(prior: seq<Agent>, at0: seq<Pos>,
                     sheep: seq<Agent>, sheepAt: seq<Pos>, sheepDraws: seq<MoverDraw>,
                     wolves: seq<Agent>, wolfAt: seq<Pos>, wolfDraws: seq<MoverDraw>,
                     shed: Shed, ws1: WaterSource, ws2: WaterSource, draw: Pos -> PatchDraw, regrowth: int)
    requires Roster(prior, shed, ws1, ws2, draw, regrowth) && FixedCells(prior, at0)
    requires |sheep| == |sheepDraws| && forall i :: 0 <= i < |sheepDraws| ==> SpawnedSheep(sheep[i], sheepDraws[i], shed)
    requires |sheepAt| == |sheepDraws| && forall i :: 0 <= i < |sheepDraws| ==> sheepAt[i] == sheepDraws[i].pos
    requires |wolves| == |wolfDraws| && forall i :: 0 <= i < |wolfDraws| ==> SpawnedWolf(wolves[i], wolfDraws[i], ws1, ws2)
    requires |wolfAt| == |wolfDraws| && forall i :: 0 <= i < |wolfDraws| ==> wolfAt[i] == wolfDraws[i].pos
    requires forall i :: 0 <= i < |wolfDraws| ==> wolfDraws[i].energy >= 0
    ensures Roster(prior + sheep + wolves, shed, ws1, ws2, draw, regrowth)
    ensures OwnCells(prior + sheep + wolves, at0 + sheepAt + wolfAt)
    ensures forall i :: 0 <= i < |sheep| ==> IsSheep(sheep[i])
    ensures forall i :: 0 <= i < |wolves| ==> IsWolf(wolves[i])
  {
    SheepRoster(sheep, sheepAt, sheepDraws, shed, ws1, ws2, draw, regrowth);
    WolfRoster(wolves, wolfAt, wolfDraws, shed, ws1, ws2, draw, regrowth);
    RosterAppend(prior, sheep, shed, ws1, ws2, draw, regrowth);
    RosterAppend(prior + sheep, wolves, shed, ws1, ws2, draw, regrowth);
    FixedCellsOwn(prior, at0);
    OwnCellsAppend(prior, at0, sheep, sheepAt);
    OwnCellsAppend(prior + sheep, at0 + sheepAt, wolves, wolfAt);
  }

  /** The schedule ends with one sheep per sheep draw and then one wolf per
      wolf draw, in draw order, each made from its draw. */
  ghost predicate MoversAsDrawn(s: seq<Agent>, draws: Draws, shed: Shed, ws1: WaterSource, ws2: WaterSource)
    reads set i | 0 <= i < |s| :: s[i].Obj()
  {
    var ns, nw := |draws.sheep|, |draws.wolves|;
    |s| >= ns + nw &&
    (forall i :: 0 <= i < ns ==> SpawnedSheep(s[|s| - nw - ns + i], draws.sheep[i], shed)) &&
    (forall j :: 0 <= j < nw ==> SpawnedWolf(s[|s| - nw + j], draws.wolves[j], ws1, ws2))
  }

  /** Sheep and wolves made from their draws, appended to a schedule, are its
      movers as drawn. */
  lemma AppendedAsDrawn(prior: seq<Agent>, sheep: seq<Agent>, wolves: seq<Agent>, draws: Draws,
                        shed: Shed, ws1: WaterSource, ws2: WaterSource)
    requires |sheep| == |draws.sheep| && forall i :: 0 <= i < |draws.sheep| ==> SpawnedSheep(sheep[i], draws.sheep[i], shed)
    requires |wolves| == |draws.wolves| &&
             forall j :: 0 <= j < |draws.wolves| ==> SpawnedWolf(wolves[j], draws.wolves[j], ws1, ws2)
    ensures MoversAsDrawn(prior + sheep + wolves, draws, shed, ws1, ws2)
  {
    var s := prior + sheep + wolves;
    var ns, nw := |draws.sheep|, |draws.wolves|;
    forall i | 0 <= i < ns
      ensures SpawnedSheep(s[|s| - nw - ns + i], draws.sheep[i], shed)
    {
      assert s[|s| - nw - ns + i] == sheep[i];
    }
    forall j | 0 <= j < nw
      ensures SpawnedWolf(s[|s| - nw + j], draws.wolves[j], ws1, ws2)
    {
      assert s[|s| - nw + j] == wolves[j];
    }
  }

  /** The sheep, then the wolves, each kind in draw order after what the
      schedule held, each placed on its drawn cell. */
  method SpawnMovers(world: World, shed: Shed, ws1: WaterSource, ws2: WaterSource,
                     sheepDraws: seq<MoverDraw>, wolfDraws: seq<MoverDraw>, ghost draw: Pos -> PatchDraw,
                     ghost prior: seq<Agent>, ghost at0: seq<Pos>)
    returns (ghost g5: map<Pos, seq<Agent>>, ghost sheep: seq<Agent>, ghost wolves: seq<Agent>, ghost at: seq<Pos>)
    requires forall i :: 0 <= i < |sheepDraws| ==> sheepDraws[i].energy >= 0
    requires forall i :: 0 <= i < |wolfDraws| ==> wolfDraws[i].energy >= 0
    requires world.schedule == prior && Roster(prior, shed, ws1, ws2, draw, world.regrowth)
    requires FixedCells(prior, at0) && world.grid == PlaceAll(map[], prior, at0)
    requires forall i :: 0 <= i < |sheepDraws| ==> InGrid(sheepDraws[i].pos, world.width, world.height)
    requires forall i :: 0 <= i < |wolfDraws| ==> InGrid(wolfDraws[i].pos, world.width, world.height)
    modifies world
    ensures world.schedule == prior + sheep + wolves
    ensures |sheep| == |sheepDraws| && |wolves| == |wolfDraws|
    ensures forall i :: 0 <= i < |sheep| ==> IsSheep(sheep[i])
    ensures forall i :: 0 <= i < |wolves| ==> IsWolf(wolves[i])
    ensures forall i {:trigger sheepDraws[i]} :: 0 <= i < |sheepDraws| ==> SpawnedSheep(sheep[i], sheepDraws[i], shed)
    ensures forall i {:trigger wolfDraws[i]} :: 0 <= i < |wolfDraws| ==> SpawnedWolf(wolves[i], wolfDraws[i], ws1, ws2)
    ensures GridExtends(old(world.grid), g5, IsSheep) && GridExtends(g5, world.grid, IsWolf)
    ensures OwnCells(world.schedule, at) && world.grid == PlaceAll(map[], world.schedule, at)
    ensures Roster(world.schedule, shed, ws1, ws2, draw, world.regrowth)
    ensures forall p :: !InGrid(p, world.width, world.height) ==> CellOf(world.grid, p) == CellOf(old(world.grid), p)
  {
    ghost var sheepAt, wolfAt;
    ghost var g4 := world.grid;
    sheep, sheepAt := SpawnSheep(world, shed, sheepDraws);
    forall i | 0 <= i < |sheepAt|
      ensures InGrid(sheepAt[i], world.width, world.height)
    {
      assert sheepAt[i] == sheepDraws[i].pos;
    }
    PlaceAllOffGrid(g4, sheep, sheepAt, world.width, world.height);
    PlaceAllAppend(map[], prior, at0, sheep, sheepAt);
    g5 := world.grid;
    wolves, wolfAt := SpawnWolves(world, ws1, ws2, wolfDraws);
    forall i | 0 <= i < |wolfAt|
      ensures InGrid(wolfAt[i], world.width, world.height)
    {
      assert wolfAt[i] == wolfDraws[i].pos;
    }
    PlaceAllOffGrid(g5, wolves, wolfAt, world.width, world.height);
    PlaceAllAppend(map[], prior + sheep, at0 + sheepAt, wolves, wolfAt);
    at := at0 + sheepAt + wolfAt;
    MoversJoined(prior, at0, sheep, sheepAt, sheepDraws, wolves, wolfAt, wolfDraws, shed, ws1, ws2, draw, world.regrowth);
  }

  /** With the sited agents on the grid, a grid laid from the sited one and
      then changed only on the grid holds nothing off it. */
  lemma NothingOffGrid(shed: Shed, ws1: WaterSource, ws2: WaterSource, grass: bool, width: int, height: int,
                       g4: map<Pos, seq<Agent>>, g6: map<Pos, seq<Agent>>)
    requires InGrid(shed.pos, width, height) && InGrid(ws1.pos, width, height) && InGrid(ws2.pos, width, height)
    requires grass ==> LaidGrid(SitedGrid(shed, ws1, ws2), g4, width, height)
    requires !grass ==> g4 == SitedGrid(shed, ws1, ws2)
    requires forall p :: !InGrid(p, width, height) ==> CellOf(g6, p) == CellOf(g4, p)
    ensures forall p :: !InGrid(p, width, height) ==> CellOf(g6, p) == []
  {
    forall p | !InGrid(p, width, height)
      ensures CellOf(g6, p) == []
    {
      assert CellOf(g4, p) == CellOf(SitedGrid(shed, ws1, ws2), p);
    }
  }

  /** The layout and the movers, added to the sited world. Returns the grid
      and schedule as they stood after the layout and after the sheep. */
  method Populate(world: World, shed: Shed, ws1: WaterSource, ws2: WaterSource, draws: Draws)
    returns (ghost g4: map<Pos, seq<Agent>>, ghost g5: map<Pos, seq<Agent>>, ghost s4: seq<Agent>, ghost s5: seq<Agent>,
             ghost at: seq<Pos>)
    requires world.grass ==> forall p :: InGrid(p, world.width, world.height) ==> PatchDrawOk(draws.patch(p), world.regrowth)
    requires forall i :: 0 <= i < |draws.sheep| ==> draws.sheep[i].energy >= 0
    requires forall i :: 0 <= i < |draws.wolves| ==> draws.wolves[i].energy >= 0
    requires forall i :: 0 <= i < |draws.sheep| ==> InGrid(draws.sheep[i].pos, world.width, world.height)
    requires forall i :: 0 <= i < |draws.wolves| ==> InGrid(draws.wolves[i].pos, world.width, world.height)
    requires InGrid(shed.pos, world.width, world.height)
    requires InGrid(ws1.pos, world.width, world.height) && InGrid(ws2.pos, world.width, world.height)
    requires world.grid == SitedGrid(shed, ws1, ws2)
    requires world.schedule == [ShedA(shed), SourceA(ws1), SourceA(ws2)]
    modifies world
    ensures forall p :: !InGrid(p, world.width, world.height) ==> CellOf(world.grid, p) == []
    ensures world.grass ==> LaidGrid(SitedGrid(shed, ws1, ws2), g4, world.width, world.height)
    ensures world.grass ==> Extends([ShedA(shed), SourceA(ws1), SourceA(ws2)], s4, IsPatch)
    ensures !world.grass ==> g4 == SitedGrid(shed, ws1, ws2) && s4 == [ShedA(shed), SourceA(ws1), SourceA(ws2)]
    ensures GridExtends(g4, g5, IsSheep) && GridExtends(g5, world.grid, IsWolf)
    ensures Extends(s4, s5, IsSheep) && Extends(s5, world.schedule, IsWolf)
    ensures |s5| - |s4| == |draws.sheep| && |world.schedule| - |s5| == |draws.wolves|
    ensures MoversAsDrawn(world.schedule, draws, shed, ws1, ws2)
    ensures OwnCells(world.schedule, at) && world.grid == PlaceAll(map[], world.schedule, at)
    ensures Roster(world.schedule, shed, ws1, ws2, draws.patch, world.regrowth)
  {
    ghost var s3 := [ShedA(shed), SourceA(ws1), SourceA(ws2)];
    ghost var at3 := [shed.pos, ws1.pos, ws2.pos];
    SitedPlaced(shed, ws1, ws2);
    ghost var laid: seq<Agent>, laidAt: seq<Pos> := [], [];
    if world.grass {
      laid, laidAt := LayGrass(world, draws.patch);
    }
    g4, s4 := world.grid, world.schedule;
    if !world.grass {
      assert s3 + laid == s3 && at3 + laidAt == at3;
    }
    PlaceAllAppend(map[], s3, at3, laid, laidAt);
    FixedCellsAppend(s3, at3, laid, laidAt);
    LaidRoster(laid, shed, ws1, ws2, draws.patch, world.regrowth);
    AppendedExtends(s3, laid, IsPatch);
    ghost var sheep, wolves;
    g5, sheep, wolves, at := SpawnMovers(world, shed, ws1, ws2, draws.sheep, draws.wolves, draws.patch, s4, at3 + laidAt);
    s5 := s4 + sheep;
    NothingOffGrid(shed, ws1, ws2, world.grass, world.width, world.height, g4, world.grid);
    AppendedAsDrawn(s4, sheep, wolves, draws, shed, ws1, ws2);
    AppendedExtends(s4, sheep, IsSheep);
    AppendedExtends(s5, wolves, IsWolf);
  }

  /** What the population step needs of the draws, on the grid as built:
      MultiGrid(height, width) makes the grid's width the height parameter. */
  lemma DrawsSuffice(config: Config, draws: Draws)
    requires DrawsOk(config, draws)
    ensures config.grass ==> forall p :: InGrid(p, config.height, config.width) ==> PatchDrawOk(draws.patch(p), config.regrowth)
    ensures forall i :: 0 <= i < |draws.sheep| ==> draws.sheep[i].energy >= 0
    ensures forall i :: 0 <= i < |draws.wolves| ==> draws.wolves[i].energy >= 0
    ensures |draws.sheep| == Times(config.initialSheep) && |draws.wolves| == Times(config.initialWolves)
    ensures InGrid(draws.shed, config.height, config.width)
    ensures forall i :: 0 <= i < |draws.source1| ==> InGrid(draws.source1[i], config.height, config.width)
    ensures forall i :: 0 <= i < |draws.source2| ==> InGrid(draws.source2[i], config.height, config.width)
    ensures forall i :: 0 <= i < |draws.sheep| ==> InGrid(draws.sheep[i].pos, config.height, config.width)
    ensures forall i :: 0 <= i < |draws.wolves| ==> InGrid(draws.wolves[i].pos, config.height, config.width)
  {
  }

  /** The finished grid: the sited agents on their cells, one patch on every
      cell of the grid when grass is on, except the three sited cells, which
      hold none, and nothing on any cell off the grid. */
  ghost predicate FinishedGrid(g: map<Pos, seq<Agent>>, shed: Shed, ws1: WaterSource, ws2: WaterSource,
                               grass: bool, width: int, height: int)
  {
    ShedA(shed) in CellOf(g, shed.pos) &&
    SourceA(ws1) in CellOf(g, ws1.pos) && SourceA(ws2) in CellOf(g, ws2.pos) &&
    (forall p :: InGrid(p, width, height) ==>
       Tally(CellOf(g, p), IsPatch) == if grass && p != shed.pos && p != ws1.pos && p != ws2.pos then 1 else 0) &&
    (forall p :: !InGrid(p, width, height) ==> CellOf(g, p) == [])
  }

  /** The finished schedule: the shed and the two sources first, one shed and
      two sources in all, and the given numbers of sheep and wolves. */
  predicate FinishedSchedule(s: seq<Agent>, shed: Shed, ws1: WaterSource, ws2: WaterSource, sheep: int, wolves: int)
  {
    |s| >= 3 && s[..3] == [ShedA(shed), SourceA(ws1), SourceA(ws2)] &&
    Tally(s, IsShed) == 1 && Tally(s, IsSource) == 2 &&
    Tally(s, IsSheep) == sheep && Tally(s, IsWolf) == wolves
  }

  /** The finished world: the sited agents in place and one patch on every
      other cell when grass is on; the sited agents first in the schedule,
      then one sheep and one wolf per draw, the schedule ending with the sheep
      and then the wolves, each made from its draw; the grid is the schedule,
      each agent placed on its own cell in turn; every patch as drawn for its
      cell, every mover heading for its target in a valid state. */
  ghost predicate Furnished(world: World, shed: Shed, ws1: WaterSource, ws2: WaterSource, config: Config, draws: Draws)
    reads world, set i | 0 <= i < |world.schedule| :: world.schedule[i].Obj()
  {
    FinishedGrid(world.grid, shed, ws1, ws2, config.grass, world.width, world.height) &&
    FinishedSchedule(world.schedule, shed, ws1, ws2, Times(config.initialSheep), Times(config.initialWolves)) &&
    MoversAsDrawn(world.schedule, draws, shed, ws1, ws2) &&
    (exists at :: OwnCells(world.schedule, at) && world.grid == PlaceAll(map[], world.schedule, at)) &&
    Roster(world.schedule, shed, ws1, ws2, draws.patch, config.regrowth)
  }

  /** Populate, with what it leaves stated for the finished world: the sited
      agents still in place, one patch per free cell, one sheep and one wolf per
      draw, all as their makers set them up. */
  method Furnish(world: World, shed: Shed, ws1: WaterSource, ws2: WaterSource, config: Config, draws: Draws)
    requires world.grass ==> forall p :: InGrid(p, world.width, world.height) ==> PatchDrawOk(draws.patch(p), world.regrowth)
    requires forall i :: 0 <= i < |draws.sheep| ==> draws.sheep[i].energy >= 0
    requires forall i :: 0 <= i < |draws.wolves| ==> draws.wolves[i].energy >= 0
    requires |draws.sheep| == Times(config.initialSheep) && |draws.wolves| == Times(config.initialWolves)
    requires world.grass == config.grass && world.regrowth == config.regrowth
    requires forall i :: 0 <= i < |draws.sheep| ==> InGrid(draws.sheep[i].pos, world.width, world.height)
    requires forall i :: 0 <= i < |draws.wolves| ==> InGrid(draws.wolves[i].pos, world.width, world.height)
    requires InGrid(shed.pos, world.width, world.height)
    requires InGrid(ws1.pos, world.width, world.height) && InGrid(ws2.pos, world.width, world.height)
    requires world.grid == SitedGrid(shed, ws1, ws2)
    requires world.schedule == [ShedA(shed), SourceA(ws1), SourceA(ws2)]
    modifies world
    ensures Furnished(world, shed, ws1, ws2, config, draws)
  {
    ghost var g4, g5, s4, s5, at := Populate(world, shed, ws1, ws2, draws);
    assert FinishedGrid(world.grid, shed, ws1, ws2, config.grass, world.width, world.height) by {
      PopulatedCells(shed, ws1, ws2, config.grass, world.width, world.height, g4, g5, world.grid);
      SitedHold(shed, ws1, ws2, world.grid);
    }
    assert FinishedSchedule(world.schedule, shed, ws1, ws2, |s5| - |s4|, |world.schedule| - |s5|) by {
      PopulatedSchedule(shed, ws1, ws2, config.grass, s4, s5, world.schedule);
    }
    assert OwnCells(world.schedule, at) && world.grid == PlaceAll(map[], world.schedule, at);
  }

  /** In the finished world every scheduled agent records a cell of the grid. */
  lemma ScheduledOnGrid(world: World, shed: Shed, ws1: WaterSource, ws2: WaterSource, config: Config, draws: Draws)
    requires Furnished(world, shed, ws1, ws2, config, draws)
    ensures forall i :: 0 <= i < |world.schedule| ==> InGrid(Where(world.schedule[i]), world.width, world.height)
  {
    var s, g := world.schedule, world.grid;
    var at :| OwnCells(s, at) && g == PlaceAll(map[], s, at);
    GridOfSchedule(g, s, at);
    assert forall p :: !InGrid(p, world.width, world.height) ==> CellOf(g, p) == [];
    forall i | 0 <= i < |s|
      ensures InGrid(Where(s[i]), world.width, world.height)
    {
      assert s[i] in CellOf(g, Where(s[i]));
    }
  }

  class WolfSheep {
    const config: Config
    const world: World
    const shed: Shed
    const ws1: WaterSource
    const ws2: WaterSource
    var running: bool

    constructor (config: Config, draws: Draws)
      requires DrawsOk(config, draws) && DrawsEnd(draws)
      ensures this.config == config && fresh(world) && running
      ensures world.width == config.height && world.height == config.width
      ensures world.grass == config.grass && world.regrowth == config.regrowth
      // the siting
      ensures shed.pos == draws.shed && ws2.pos == draws.source2[0] && ws1.pos != shed.pos
      ensures exists k :: 0 <= k < |draws.source1| && ws1.pos == draws.source1[k] &&
                forall j :: 0 <= j < k ==> draws.source1[j] == draws.shed
      // the grid, the schedule and every agent as the population step leaves them
      ensures Furnished(world, shed, ws1, ws2, config, draws)
    {
      var w, sh, s1, s2 := SiteResources(config, draws);
      this.config := config;
      world, shed, ws1, ws2 := w, sh, s1, s2;
      running := true;
      new;
      DrawsSuffice(config, draws);
      Furnish(world, shed, ws1, ws2, config, draws);
    }
  }
}
