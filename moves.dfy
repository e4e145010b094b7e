/** Sliding move generation: from a pawn, walk each direction while the cell is on the board
    and its grid value is 0. */
module Moves {
  import opened Coordinates
  import opened Board

  /** How many more cells a walk from q along d can visit before it leaves the board. */
  function Remaining(q: Coords, d: Coords): int
    requires IsUnit(d)
  {
    if d.i == 1 then Size - q.i
    else if d.i == -1 then q.i + 1
    else if d.j == 1 then Size - q.j
    else q.j + 1
  }

  /** The cells a walk collects starting at q (inclusive) and stepping by d. */
  function Ray(g: Grid, q: Coords, d: Coords): seq<Coords>
    requires IsGrid(g) && IsUnit(d)
    decreases Remaining(q, d)
  {
    if IsOnBoard(q) && IsCellEmpty(g, q) then [q] + Ray(g, Add(q, d), d) else []
  }

  /** The destinations collected from p over the directions dirs, in order. */
  function MovesAlong(g: Grid, p: Coords, dirs: seq<Coords>): seq<Coords>
    requires IsGrid(g) && forall n :: 0 <= n < |dirs| ==> IsUnit(dirs[n])
  {
    if dirs == [] then []
    else
      var d := dirs[|dirs| - 1];
      MovesAlong(g, p, dirs[..|dirs| - 1]) + Ray(g, Add(p, d), d)
  }

  /** Every destination the move loop offers for a pawn at p; each is on the board and empty
      on the grid. */
  function Destinations(g: Grid, p: Coords): (r: seq<Coords>)
    requires IsGrid(g)
    ensures forall m :: m in r ==> IsOnBoard(m) && IsCellEmpty(g, m)
  {
    forall m | m in MovesAlong(g, p, Directions()) ensures IsOnBoard(m) && IsCellEmpty(g, m) {
      DestinationOnBoardAndEmpty(g, p, m);
    }
    MovesAlong(g, p, Directions())
  }

  /** Steps 1..k from p along d are all on the board and empty. */
  predicate ClearPath(g: Grid, p: Coords, d: Coords, k: int)
    requires IsGrid(g)
  {
    forall t :: 1 <= t <= k ==> IsOnBoard(Step(p, d, t)) && IsCellEmpty(g, Step(p, d, t))
  }

  /** Step k from p along d stops a walk: it is off the board or not empty. */
  predicate Blocked(g: Grid, p: Coords, d: Coords, k: int)
    requires IsGrid(g)
  {
    !(IsOnBoard(Step(p, d, k)) && IsCellEmpty(g, Step(p, d, k)))
  }

  /** A walk started at step s collects steps s, s+1, ... up to the first blocking step. */
  lemma {:induction false} RayFrom(g: Grid, p: Coords, d: Coords, s: int)
    requires IsGrid(g) && IsUnit(d) && s >= 1
    ensures var r := Ray(g, Step(p, d, s), d);
      (forall t :: 0 <= t < |r| ==> r[t] == Step(p, d, s + t)) &&
      (forall t :: s <= t < s + |r| ==> IsOnBoard(Step(p, d, t)) && IsCellEmpty(g, Step(p, d, t))) &&
      Blocked(g, p, d, s + |r|)
    decreases Remaining(Step(p, d, s), d)
  {
    var q := Step(p, d, s);
    if IsOnBoard(q) && IsCellEmpty(g, q) {
      StepAdd(p, d, s);
      RayFrom(g, p, d, s + 1);
      var rest := Ray(g, Step(p, d, s + 1), d);
      assert Ray(g, q, d) == [q] + rest;
    }
  }

  /** In direction d the walk from p collects exactly steps 1..n, where step n+1 is the first
      that is off the board or not empty; the blocking cell is excluded. */
  lemma RayExact(g: Grid, p: Coords, d: Coords)
    requires IsGrid(g) && IsUnit(d)
    ensures var r := Ray(g, Add(p, d), d);
      (forall t :: 0 <= t < |r| ==> r[t] == Step(p, d, t + 1)) &&
      ClearPath(g, p, d, |r|) && Blocked(g, p, d, |r| + 1)
  {
    StepAdd(p, d, 0);
    RayFrom(g, p, d, 1);
  }

  /** A cell lies on the walk along d iff it is step k >= 1 with a clear path up to it. */
  lemma RayMember(g: Grid, p: Coords, d: Coords, m: Coords)
    requires IsGrid(g) && IsUnit(d)
    ensures m in Ray(g, Add(p, d), d) <==> exists k :: 1 <= k && m == Step(p, d, k) && ClearPath(g, p, d, k)
  {
    var r := Ray(g, Add(p, d), d);
    RayExact(g, p, d);
    if m in r {
      var t :| 0 <= t < |r| && r[t] == m;
      assert m == Step(p, d, t + 1) && ClearPath(g, p, d, t + 1);
    }
    if k :| 1 <= k && m == Step(p, d, k) && ClearPath(g, p, d, k) {
      if k <= |r| {
        assert r[k - 1] == m;
      }
    }
  }

  /** A walk from an on-board cell collects at most Size - 1 = 4 cells. */
  lemma RayBound(g: Grid, p: Coords, d: Coords)
    requires IsGrid(g) && IsUnit(d) && IsOnBoard(p)
    ensures |Ray(g, Add(p, d), d)| <= Size - 1
  {
    var r := Ray(g, Add(p, d), d);
    RayExact(g, p, d);
    if |r| >= Size {
      assert IsOnBoard(Step(p, d, Size));
      FarStepOffBoard(p, d, Size);
    }
  }

  lemma {:induction false} MovesAlongMember(g: Grid, p: Coords, dirs: seq<Coords>, m: Coords)
    requires IsGrid(g) && forall n :: 0 <= n < |dirs| ==> IsUnit(dirs[n])
    ensures m in MovesAlong(g, p, dirs) <==> exists n :: 0 <= n < |dirs| && m in Ray(g, Add(p, dirs[n]), dirs[n])
  {
    if dirs != [] {
      var init := dirs[..|dirs| - 1];
      MovesAlongMember(g, p, init, m);
      assert forall n :: 0 <= n < |init| ==> init[n] == dirs[n];
    }
  }

  lemma {:induction false} MovesAlongBound(g: Grid, p: Coords, dirs: seq<Coords>)
    requires IsGrid(g) && IsOnBoard(p) && forall n :: 0 <= n < |dirs| ==> IsUnit(dirs[n])
    ensures |MovesAlong(g, p, dirs)| <= (Size - 1) * |dirs|
  {
    if dirs != [] {
      MovesAlongBound(g, p, dirs[..|dirs| - 1]);
      RayBound(g, p, dirs[|dirs| - 1]);
    }
  }

  /** The destinations of a pawn are exactly the cells k >= 1 unit steps away along a row,
      column or diagonal with every cell up to and including them on the board and empty. */
  lemma DestinationsIff(g: Grid, p: Coords, m: Coords)
    requires IsGrid(g)
    ensures m in Destinations(g, p) <==>
      exists d, k :: IsUnit(d) && 1 <= k && m == Step(p, d, k) && ClearPath(g, p, d, k)
  {
    var dirs := Directions();
    MovesAlongMember(g, p, dirs, m);
    if m in Destinations(g, p) {
      var n :| 0 <= n < |dirs| && m in Ray(g, Add(p, dirs[n]), dirs[n]);
      RayMember(g, p, dirs[n], m);
    }
    if d, k :| IsUnit(d) && 1 <= k && m == Step(p, d, k) && ClearPath(g, p, d, k) {
      var n :| 0 <= n < |dirs| && dirs[n] == d;
      RayMember(g, p, d, m);
    }
  }

  lemma DestinationOnBoardAndEmpty(g: Grid, p: Coords, m: Coords)
    requires IsGrid(g) && m in MovesAlong(g, p, Directions())
    ensures IsOnBoard(m) && IsCellEmpty(g, m)
  {
    var dirs := Directions();
    MovesAlongMember(g, p, dirs, m);
    var n :| 0 <= n < |dirs| && m in Ray(g, Add(p, dirs[n]), dirs[n]);
    RayMember(g, p, dirs[n], m);
    var k :| 1 <= k && m == Step(p, dirs[n], k) && ClearPath(g, p, dirs[n], k);
  }

  /** At most 8 directions times 4 cells. */
  lemma DestinationsBound(g: Grid, p: Coords)
    requires IsGrid(g) && IsOnBoard(p)
    ensures |Destinations(g, p)| <= 32
  {
    MovesAlongBound(g, p, Directions());
  }

  /** One iteration of the walk: an on-board empty cell is collected and the walk goes on. */
  lemma RayCons(g: Grid, q: Coords, d: Coords)
    requires IsGrid(g) && IsUnit(d) && IsOnBoard(q) && IsCellEmpty(g, q)
    ensures Ray(g, q, d) == [q] + Ray(g, Add(q, d), d)
  {
  }
}
