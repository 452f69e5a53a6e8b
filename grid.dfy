/** The parts of the toroidal multi-grid that the simulation relies on:
    positions, the raw Manhattan distance the agents use, the torus wrap and
    the ordered neighbourhood of a cell. */
module Grid {

  datatype Pos = Pos(x: int, y: int)

  function Abs(n: int): (r: nat)
    ensures r == n || r == -n
  {
    if n < 0 then -n else n
  }

  /** |dx| + |dy| on the raw coordinates; the agents never wrap it round the torus. */
  function Manhattan(a: Pos, b: Pos): (d: nat)
    ensures d == 0 <==> a == b
  {
    Abs(a.x - b.x) + Abs(a.y - b.y)
  }

  predicate InGrid(p: Pos, width: int, height: int)
  {
    0 <= p.x < width && 0 <= p.y < height
  }

  /** The torus adjustment: each coordinate taken modulo the grid size (Python's
      `%` with a positive modulus, which agrees with Dafny's). */
  function Wrap(p: Pos, width: int, height: int): (q: Pos)
    requires width > 0 && height > 0
    ensures InGrid(q, width, height)
    ensures InGrid(p, width, height) ==> q == p
  {
    Pos(p.x % width, p.y % height)
  }

  /** Offsets of the Moore (8-cell) and von Neumann (4-cell) neighbourhoods with
      the centre included, in enumeration order: row by row, left to right. */
  const MooreOffsets: seq<Pos> :=
    [Pos(-1, -1), Pos(0, -1), Pos(1, -1),
     Pos(-1, 0), Pos(0, 0), Pos(1, 0),
     Pos(-1, 1), Pos(0, 1), Pos(1, 1)]
  const VonNeumannOffsets: seq<Pos> :=
    [Pos(0, -1), Pos(-1, 0), Pos(0, 0), Pos(1, 0), Pos(0, 1)]

  /** get_neighborhood(pos, moore, include_center=True) on a torus. */
  function Neighbourhood(p: Pos, moore: bool, width: int, height: int): (r: seq<Pos>)
    requires width > 0 && height > 0
    ensures |r| == if moore then 9 else 5
    ensures forall q :: q in r ==> InGrid(q, width, height)
    ensures Wrap(p, width, height) in r
    ensures InGrid(p, width, height) ==> p in r
  {
    var offsets := if moore then MooreOffsets else VonNeumannOffsets;
    var r := seq(|offsets|, i requires 0 <= i < |offsets| =>
                   Wrap(Pos(p.x + offsets[i].x, p.y + offsets[i].y), width, height));
    assert r[if moore then 4 else 2] == Wrap(p, width, height);
    r
  }
}
