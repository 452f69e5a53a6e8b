/** Movement of the harvesting and watering agents (TargetWalker.target_move) and the
    unused uniform walk (RandomWalker.random_move).

    The choice of the next cell only reads the grid, so it is stated over a
    snapshot of what the agent sees: the ordered candidate cells and, for each,
    the ordered view of its occupants. Moving the agent afterwards is done by
    the agents themselves (Agents.World.MoveAgent). A random choice among the
    candidates is an input `pick`, the index `random.choice` would draw. */
module RandomWalk {
  import opened Wrappers
  import opened Grid

  datatype TaskState = Pick | Drop

  /** The `agent_type` of a mover: 'HARVEST' (a sheep) or 'WATER' (a wolf). */
  datatype Role = Harvest | Water

  /** What target_move reads of one occupant of a cell: whether its agent_type is
      'GRASS', its water level and its fully_grown flag (which every agent that
      is not a grass patch carries as False). */
  datatype Occupant = Occupant(isGrass: bool, waterLevel: real, fullyGrown: bool)

  /** The value `min_level` is reset to for every candidate cell. */
  const MinLevelStart: real := 5000.0

  /** A grass patch in this cell passes the test `min_level >= water_level`
      against a freshly reset `min_level`. */
  predicate Waterable(cell: seq<Occupant>)
  {
    exists i :: 0 <= i < |cell| && cell[i].isGrass && cell[i].waterLevel <= MinLevelStart
  }

  /** The first occupant of this cell is a fully grown patch. */
  predicate Ripe(cell: seq<Occupant>)
  {
    |cell| > 0 && cell[0].fullyGrown
  }

  /** Cell `p` is strictly closer to `target` than `here`, by raw Manhattan distance. */
  predicate Closer(p: Pos, target: Pos, here: Pos)
  {
    Manhattan(target, p) < Manhattan(target, here)
  }

  /** The index of the first element satisfying `p`. */
  function FirstWhere<T>(s: seq<T>, p: T -> bool): (r: Option<nat>)
    ensures r.Some? ==> r.value < |s| && p(s[r.value])
    ensures r.Some? ==> forall j :: 0 <= j < r.value ==> !p(s[j])
    ensures r.None? <==> forall j :: 0 <= j < |s| ==> !p(s[j])
  {
    if |s| == 0 then None
    else if p(s[0]) then Some(0)
    else match FirstWhere(s[1..], p)
         case None => None
         case Some(k) => Some(k + 1)
  }

  /** The index of the last element satisfying `p`. */
  function LastWhere<T>(s: seq<T>, p: T -> bool): (r: Option<nat>)
    ensures r.Some? ==> r.value < |s| && p(s[r.value])
    ensures r.Some? ==> forall j :: r.value < j < |s| ==> !p(s[j])
    ensures r.None? <==> forall j :: 0 <= j < |s| ==> !p(s[j])
  {
    if |s| == 0 then None
    else if p(s[|s| - 1]) then Some(|s| - 1)
    else LastWhere(s[..|s| - 1], p)
  }

  /** The index, among the candidates `nbrs`, of the cell target_move moves to,
      or None when the agent stays put. `cells[i]` is the view of `nbrs[i]`,
      `here` the agent's cell and `target` its target's cell. */
  function ChooseMove(role: Option<Role>, state: TaskState, here: Pos, target: Pos,
                      nbrs: seq<Pos>, cells: seq<seq<Occupant>>, pick: nat): (r: Option<nat>)
    requires |cells| == |nbrs| && pick < |nbrs|
    ensures r.Some? ==> r.value < |nbrs|
    // an agent without an agent_type never moves
    ensures role.None? ==> r.None?
    // water carrier dropping: the LAST candidate holding a waterable patch, else stay
    ensures role == Some(Water) && state == Drop ==>
              (r.None? <==> forall j :: 0 <= j < |cells| ==> !Waterable(cells[j]))
    ensures role == Some(Water) && state == Drop && r.Some? ==>
              Waterable(cells[r.value]) &&
              forall j :: r.value < j < |cells| ==> !Waterable(cells[j])
    // harvester dropping: the FIRST ripe candidate, else the random one
    ensures role == Some(Harvest) && state == Drop ==>
              r.Some? &&
              if exists j :: 0 <= j < |cells| && Ripe(cells[j]) then
                Ripe(cells[r.value]) && forall j :: 0 <= j < r.value ==> !Ripe(cells[j])
              else r.value == pick
    // either role picking: the FIRST strictly closer candidate, else the random one
    ensures role.Some? && state == Pick ==>
              r.Some? &&
              if exists j :: 0 <= j < |nbrs| && Closer(nbrs[j], target, here) then
                Closer(nbrs[r.value], target, here) &&
                forall j :: 0 <= j < r.value ==> !Closer(nbrs[j], target, here)
              else r.value == pick
  {
    match role
    case None => None
    case Some(Water) | Some(Harvest) =>
      if state == Drop && role == Some(Water) then
        LastWhere(cells, Waterable)
      else if state == Drop && role == Some(Harvest) then
        var first := FirstWhere(cells, Ripe);
        if first.Some? then first else Some(pick)
      else
        var first := FirstWhere(nbrs, q => Closer(q, target, here));
        if first.Some? then first else Some(pick)
  }

  /** The cell ChooseMove designates, if any. */
  function Destination(role: Option<Role>, state: TaskState, here: Pos, target: Pos,
                       nbrs: seq<Pos>, cells: seq<seq<Occupant>>, pick: nat): (r: Option<Pos>)
    requires |cells| == |nbrs| && pick < |nbrs|
    ensures r.Some? ==> r.value in nbrs
    ensures r.None? <==> ChooseMove(role, state, here, target, nbrs, cells, pick).None?
  {
    match ChooseMove(role, state, here, target, nbrs, cells, pick)
    case None => None
    case Some(k) => Some(nbrs[k])
  }

  /** target_move's scan of the candidates, loop for loop: the water branch
      resets `min_level` for every candidate and updates on `>=`, the other two
      branches stop at the first match and fall back to the random pick. */
  method TargetChoice(role: Option<Role>, state: TaskState, here: Pos, target: Pos,
                      nbrs: seq<Pos>, cells: seq<seq<Occupant>>, pick: nat)
    returns (next: Option<Pos>)
    requires |cells| == |nbrs| && pick < |nbrs|
    ensures next == Destination(role, state, here, target, nbrs, cells, pick)
  {
    next := None;
    if role.Some? {
      if state == Drop && role == Some(Water) {
        next := WaterScan(here, target, nbrs, cells, pick);
      } else if state == Drop && role == Some(Harvest) {
        next := RipeScan(here, target, nbrs, cells, pick);
      } else if state == Pick {
        next := CloserScan(role, here, target, nbrs, cells, pick);
      }
    }
  }

  /** The water carrier's scan: every candidate is examined, and a candidate
      with a patch passing the `min_level` test replaces the choice so far. */
  method WaterScan(here: Pos, target: Pos, nbrs: seq<Pos>, cells: seq<seq<Occupant>>, pick: nat)
    returns (next: Option<Pos>)
    requires |cells| == |nbrs| && pick < |nbrs|
    ensures next == Destination(Some(Water), Drop, here, target, nbrs, cells, pick)
  {
    next := None;
    var i := 0;
    while i < |nbrs|
      invariant 0 <= i <= |nbrs|
      invariant next == match LastWhere(cells[..i], Waterable)
                        case None => None
                        case Some(k) => Some(nbrs[k])
    {
      var found := PassesWaterTest(cells[i]);
      if found {
        next := Some(nbrs[i]);
      }
      assert cells[..i + 1][..i] == cells[..i];
      i := i + 1;
    }
    assert cells[..|nbrs|] == cells;
  }

  /** The inner loop of the water branch over one candidate cell: `min_level`
      restarts at 5000 and drops to each grass patch's level that passes. */
  method PassesWaterTest(cell: seq<Occupant>) returns (found: bool)
    ensures found == Waterable(cell)
  {
    found := false;
    var minLevel := MinLevelStart;
    var j := 0;
    while j < |cell|
      invariant 0 <= j <= |cell|
      invariant minLevel <= MinLevelStart
      invariant found == Waterable(cell[..j])
      invariant !found ==> minLevel == MinLevelStart
    {
      if cell[j].isGrass && minLevel >= cell[j].waterLevel {
        found := true;
        minLevel := cell[j].waterLevel;
      }
      WaterablePrefixStep(cell, j);
      j := j + 1;
    }
    assert cell[..|cell|] == cell;
  }

  /** The harvester's scan: the first candidate whose first occupant is grown,
      else the drawn candidate. */
  method RipeScan(here: Pos, target: Pos, nbrs: seq<Pos>, cells: seq<seq<Occupant>>, pick: nat)
    returns (next: Option<Pos>)
    requires |cells| == |nbrs| && pick < |nbrs|
    ensures next == Destination(Some(Harvest), Drop, here, target, nbrs, cells, pick)
  {
    next := None;
    var i := 0;
    while i < |nbrs|
      invariant 0 <= i <= |nbrs|
      invariant forall j :: 0 <= j < i ==> !Ripe(cells[j])
      invariant next == None
    {
      var patch := cells[i];
      if |patch| > 0 {
        if patch[0].fullyGrown {
          next := Some(nbrs[i]);
          break;
        }
      }
      i := i + 1;
    }
    if next == None {
      next := Some(nbrs[pick]);
    }
  }

  /** The picking scan, for either role: the first candidate strictly closer
      to the target, else the drawn candidate. */
  method CloserScan(role: Option<Role>, here: Pos, target: Pos, nbrs: seq<Pos>, cells: seq<seq<Occupant>>, pick: nat)
    returns (next: Option<Pos>)
    requires |cells| == |nbrs| && pick < |nbrs| && role.Some?
    ensures next == Destination(role, Pick, here, target, nbrs, cells, pick)
  {
    next := None;
    var i := 0;
    while i < |nbrs|
      invariant 0 <= i <= |nbrs|
      invariant forall j :: 0 <= j < i ==> !Closer(nbrs[j], target, here)
      invariant next == None
    {
      var move := nbrs[i];
      if Manhattan(target, move) < Manhattan(target, here) {
        next := Some(move);
        break;
      }
      i := i + 1;
    }
    if next == None {
      next := Some(nbrs[pick]);
    }
  }

  /** One more occupant examined: the prefix becomes waterable exactly when it
      was already or the new occupant passes the test. */
  lemma WaterablePrefixStep(cell: seq<Occupant>, j: nat)
    requires j < |cell|
    ensures Waterable(cell[..j + 1]) <==>
              Waterable(cell[..j]) || (cell[j].isGrass && cell[j].waterLevel <= MinLevelStart)
  {
    var next := cell[..j + 1];
    if Waterable(next) {
      var k :| 0 <= k < |next| && next[k].isGrass && next[k].waterLevel <= MinLevelStart;
      if k < j {
        assert cell[..j][k] == next[k];
      }
    }
    if Waterable(cell[..j]) {
      var k :| 0 <= k < j && cell[..j][k].isGrass && cell[..j][k].waterLevel <= MinLevelStart;
      assert next[k] == cell[..j][k];
    }
    if cell[j].isGrass && cell[j].waterLevel <= MinLevelStart {
      assert next[j] == cell[j];
    }
  }

  /** The water carrier's choice is not the neighbour with the least water:
      with two dry patches, the later one is chosen although the earlier one is
      drier, because `min_level` starts again at 5000 for each candidate. */
  lemma WaterChoiceIsNotTheDriest()
    ensures var nbrs := [Pos(0, 0), Pos(1, 0)];
            var cells := [[Occupant(true, 1.0, false)], [Occupant(true, 3.0, false)]];
            ChooseMove(Some(Water), Drop, Pos(0, 0), Pos(5, 5), nbrs, cells, 0) == Some(1) &&
            cells[0][0].waterLevel < cells[1][0].waterLevel
  {
    var cells: seq<seq<Occupant>> := [[Occupant(true, 1.0, false)], [Occupant(true, 3.0, false)]];
    assert cells[1][0].isGrass && cells[1][0].waterLevel <= MinLevelStart;
    assert Waterable(cells[1]);
  }

  /** RandomWalker.random_move: the drawn element of the neighbourhood. */
  function RandomMove(nbrs: seq<Pos>, pick: nat): (r: Pos)
    requires pick < |nbrs|
    ensures r in nbrs
  {
    nbrs[pick]
  }

  /** random_move may leave the agent where it is: its own cell is among the
      candidates of the (centre-including) neighbourhood. */
  lemma RandomMoveMayStay(here: Pos, moore: bool, width: int, height: int)
    requires width > 0 && height > 0 && InGrid(here, width, height)
    ensures exists pick :: 0 <= pick < |Neighbourhood(here, moore, width, height)| &&
                           RandomMove(Neighbourhood(here, moore, width, height), pick) == here
  {
    var nbrs := Neighbourhood(here, moore, width, height);
    var k :| 0 <= k < |nbrs| && nbrs[k] == here;
    assert RandomMove(nbrs, k) == here;
  }
}
