/** The maze stage: a square grid of cells carved into a maze by a
    depth-first search with an explicit stack, an exit opened in the far
    corner, and the list of wall pieces to build from the cells' wall
    flags. Cell `(x, z)` is `maze[x, z]`; `top` faces `z - 1`, `bottom`
    faces `z + 1`, `left` faces `x - 1`, `right` faces `x + 1`. */
module Maze {
  import opened Common

  const MAZE_SIZE: int := 20
  const CELL_SIZE: real := 4.0
  const WALL_HEIGHT: real := 8.0

  datatype Cell = Cell(x: int, z: int, top: bool, right: bool, bottom: bool, left: bool, visited: bool)

  datatype Direction = Left | Right | Top | Bottom

  /** The carved passage between two neighbouring cells: `H(x, z)` joins
      `(x, z)` and `(x + 1, z)`, `V(x, z)` joins `(x, z)` and `(x, z + 1)`. */
  datatype Edge = H(x: int, z: int) | V(x: int, z: int)

  function Target(x: int, z: int, d: Direction): (int, int) {
    match d
    case Left => (x - 1, z)
    case Right => (x + 1, z)
    case Top => (x, z - 1)
    case Bottom => (x, z + 1)
  }

  function EdgeOf(x: int, z: int, d: Direction): Edge {
    match d
    case Left => H(x - 1, z)
    case Right => H(x, z)
    case Top => V(x, z - 1)
    case Bottom => V(x, z)
  }

  function Ends(e: Edge): ((int, int), (int, int)) {
    match e
    case H(x, z) => ((x, z), (x + 1, z))
    case V(x, z) => ((x, z), (x, z + 1))
  }

  predicate InGrid(n: int, x: int, z: int) {
    0 <= x < n && 0 <= z < n
  }

  ghost function Grid(n: nat): set<(int, int)> {
    set x, z | 0 <= x < n && 0 <= z < n :: (x, z)
  }

  /** Every cell knows its own coordinates. */
  ghost predicate Placed(m: array2<Cell>)
    reads m
  {
    forall x, z :: 0 <= x < m.Length0 && 0 <= z < m.Length1 ==> m[x, z].x == x && m[x, z].z == z
  }

  /** Neighbouring cells agree on the wall between them. */
  ghost predicate Symmetric(m: array2<Cell>)
    reads m
  {
    (forall x, z :: 0 <= x < m.Length0 - 1 && 0 <= z < m.Length1 ==> m[x, z].right == m[x + 1, z].left) &&
    (forall x, z :: 0 <= x < m.Length0 && 0 <= z < m.Length1 - 1 ==> m[x, z].bottom == m[x, z + 1].top)
  }

  /** The outer walls of the grid are all standing. */
  ghost predicate Enclosed(m: array2<Cell>)
    reads m
  {
    forall x, z :: 0 <= x < m.Length0 && 0 <= z < m.Length1 ==>
      (x == 0 ==> m[x, z].left) && (x == m.Length0 - 1 ==> m[x, z].right) &&
      (z == 0 ==> m[x, z].top) && (z == m.Length1 - 1 ==> m[x, z].bottom)
  }

  /** The interior walls that are down are exactly the carved passages. */
  ghost predicate CarvedAre(m: array2<Cell>, carved: set<Edge>)
    reads m
  {
    (forall x, z :: 0 <= x < m.Length0 - 1 && 0 <= z < m.Length1 ==> (!m[x, z].right <==> H(x, z) in carved)) &&
    (forall x, z :: 0 <= x < m.Length0 && 0 <= z < m.Length1 - 1 ==> (!m[x, z].bottom <==> V(x, z) in carved))
  }

  /** `visited` flags and the ghost set of visited cells agree. */
  ghost predicate VisitedAre(m: array2<Cell>, seen: set<(int, int)>)
    reads m
  {
    forall x, z :: 0 <= x < m.Length0 && 0 <= z < m.Length1 ==> (m[x, z].visited <==> (x, z) in seen)
  }

  /** The initialisation loop: every cell has its four walls and is
      unvisited. */
  method InitMaze(size: nat) returns (m: array2<Cell>)
    ensures fresh(m) && m.Length0 == size && m.Length1 == size
    ensures forall x, z :: 0 <= x < size && 0 <= z < size ==> m[x, z] == Cell(x, z, true, true, true, true, false)
  {
    m := new Cell[size, size];
    for x := 0 to size
      invariant forall i, j :: 0 <= i < x && 0 <= j < size ==> m[i, j] == Cell(i, j, true, true, true, true, false)
    {
      for z := 0 to size
        invariant forall i, j :: 0 <= i < x && 0 <= j < size ==> m[i, j] == Cell(i, j, true, true, true, true, false)
        invariant forall j :: 0 <= j < z ==> m[x, j] == Cell(x, j, true, true, true, true, false)
      {
        m[x, z] := Cell(x, z, true, true, true, true, false);
      }
    }
  }

  /** The unvisited neighbours of `(x, z)`, in the order left, right, top,
      bottom: exactly the in-grid, unvisited cells one step away. */
  function Neighbours(m: array2<Cell>, x: int, z: int): (ns: seq<Direction>)
    requires m.Length0 == m.Length1 && InGrid(m.Length0, x, z)
    reads m
    ensures forall d :: d in ns <==>
      InGrid(m.Length0, Target(x, z, d).0, Target(x, z, d).1) && !m[Target(x, z, d).0, Target(x, z, d).1].visited
  {
    var n := m.Length0;
    (if x > 0 && !m[x - 1, z].visited then [Left] else []) +
    (if x < n - 1 && !m[x + 1, z].visited then [Right] else []) +
    (if z > 0 && !m[x, z - 1].visited then [Top] else []) +
    (if z < n - 1 && !m[x, z + 1].visited then [Bottom] else [])
  }

  /** The shape the search keeps: cells placed, walls agreeing, the outer
      wall standing, `seen` the visited cells and `carved` the interior
      walls that are down. */
  ghost predicate Carving(m: array2<Cell>, seen: set<(int, int)>, carved: set<Edge>)
    reads m
  {
    CellsAre(m, seen) && WallsDown(m, carved, carved)
  }

  /** Per cell: its coordinates, its visited flag, its outer walls. */
  ghost predicate CellsAre(m: array2<Cell>, seen: set<(int, int)>)
    reads m
  {
    forall x, z :: 0 <= x < m.Length0 && 0 <= z < m.Length1 ==>
      m[x, z].x == x && m[x, z].z == z && (m[x, z].visited <==> (x, z) in seen) &&
      (x == 0 ==> m[x, z].left) && (x == m.Length0 - 1 ==> m[x, z].right) &&
      (z == 0 ==> m[x, z].top) && (z == m.Length1 - 1 ==> m[x, z].bottom)
  }

  /** Per interior wall, each side on its own: the side of the cell with
      the smaller coordinate is down exactly for the edges in `near`, the
      other side exactly for the edges in `far`. A wall is torn down one
      side at a time, so the two sets differ only in the middle of a step. */
  ghost predicate WallsDown(m: array2<Cell>, near: set<Edge>, far: set<Edge>)
    reads m
  {
    (forall x, z :: 0 <= x < m.Length0 - 1 && 0 <= z < m.Length1 ==>
      (m[x, z].right <==> H(x, z) !in near) && (m[x + 1, z].left <==> H(x, z) !in far)) &&
    (forall x, z :: 0 <= x < m.Length0 && 0 <= z < m.Length1 - 1 ==>
      (m[x, z].bottom <==> V(x, z) !in near) && (m[x, z + 1].top <==> V(x, z) !in far))
  }

  lemma CarvingShape(m: array2<Cell>, seen: set<(int, int)>, carved: set<Edge>)
    requires Carving(m, seen, carved)
    ensures Placed(m) && Symmetric(m) && Enclosed(m) && VisitedAre(m, seen) && CarvedAre(m, carved)
  {
  }

  /** One forward step: the wall between `(x, z)` and its neighbour in
      direction `d` comes down, first on the side of `(x, z)`, then on the
      neighbour's side, and the neighbour is marked visited; no other cell
      changes. The step keeps the shape, with one more visited cell and one
      more passage. */
  method Carve(m: array2<Cell>, x: int, z: int, d: Direction, ghost seen: set<(int, int)>, ghost carved: set<Edge>)
    requires m.Length0 == m.Length1 && InGrid(m.Length0, x, z)
    requires InGrid(m.Length0, Target(x, z, d).0, Target(x, z, d).1)
    requires Carving(m, seen, carved)
    modifies m
    ensures Carving(m, seen + {Target(x, z, d)}, carved + {EdgeOf(x, z, d)})
  {
    match d {
      case Left => TearLeft(m, x, z, seen, carved);
      case Right => TearRight(m, x, z, seen, carved);
      case Top => TearTop(m, x, z, seen, carved);
      case Bottom => TearBottom(m, x, z, seen, carved);
    }
    var (tx, tz) := Target(x, z, d);
    Visit(m, tx, tz, seen, carved + {EdgeOf(x, z, d)});
  }

  method TearLeft(m: array2<Cell>, x: int, z: int, ghost seen: set<(int, int)>, ghost carved: set<Edge>)
    requires m.Length0 == m.Length1 && InGrid(m.Length0, x, z) && InGrid(m.Length0, x - 1, z)
    requires Carving(m, seen, carved)
    modifies m
    ensures Carving(m, seen, carved + {EdgeOf(x, z, Left)})
  {
    LowerLeft(m, x, z, seen, carved, carved);
    LowerRight(m, x - 1, z, seen, carved, carved + {EdgeOf(x, z, Left)});
  }

  method TearRight(m: array2<Cell>, x: int, z: int, ghost seen: set<(int, int)>, ghost carved: set<Edge>)
    requires m.Length0 == m.Length1 && InGrid(m.Length0, x, z) && InGrid(m.Length0, x + 1, z)
    requires Carving(m, seen, carved)
    modifies m
    ensures Carving(m, seen, carved + {EdgeOf(x, z, Right)})
  {
    LowerRight(m, x, z, seen, carved, carved);
    LowerLeft(m, x + 1, z, seen, carved + {EdgeOf(x, z, Right)}, carved);
  }

  method TearTop(m: array2<Cell>, x: int, z: int, ghost seen: set<(int, int)>, ghost carved: set<Edge>)
    requires m.Length0 == m.Length1 && InGrid(m.Length0, x, z) && InGrid(m.Length0, x, z - 1)
    requires Carving(m, seen, carved)
    modifies m
    ensures Carving(m, seen, carved + {EdgeOf(x, z, Top)})
  {
    LowerTop(m, x, z, seen, carved, carved);
    LowerBottom(m, x, z - 1, seen, carved, carved + {EdgeOf(x, z, Top)});
  }

  method TearBottom(m: array2<Cell>, x: int, z: int, ghost seen: set<(int, int)>, ghost carved: set<Edge>)
    requires m.Length0 == m.Length1 && InGrid(m.Length0, x, z) && InGrid(m.Length0, x, z + 1)
    requires Carving(m, seen, carved)
    modifies m
    ensures Carving(m, seen, carved + {EdgeOf(x, z, Bottom)})
  {
    LowerBottom(m, x, z, seen, carved, carved);
    LowerTop(m, x, z + 1, seen, carved + {EdgeOf(x, z, Bottom)}, carved);
  }

  /** Marking a cell visited adds it to the visited set and changes
      nothing else. */
  method Visit(m: array2<Cell>, x: int, z: int, ghost seen: set<(int, int)>, ghost carved: set<Edge>)
    requires m.Length0 == m.Length1 && InGrid(m.Length0, x, z)
    requires Carving(m, seen, carved)
    modifies m
    ensures Carving(m, seen + {(x, z)}, carved)
  {
    m[x, z] := m[x, z].(visited := true);
  }

  /** The right wall taken down on a cell that is not in the last column. */
  method LowerRight(m: array2<Cell>, x: int, z: int, ghost seen: set<(int, int)>, ghost near: set<Edge>, ghost far: set<Edge>)
    requires InGrid(m.Length0, x, z) && z < m.Length1 && x < m.Length0 - 1
    requires CellsAre(m, seen) && WallsDown(m, near, far)
    modifies m
    ensures CellsAre(m, seen) && WallsDown(m, near + {H(x, z)}, far)
  {
    m[x, z] := m[x, z].(right := false);
  }

  /** The left wall taken down on a cell that is not in the first column. */
  method LowerLeft(m: array2<Cell>, x: int, z: int, ghost seen: set<(int, int)>, ghost near: set<Edge>, ghost far: set<Edge>)
    requires InGrid(m.Length0, x, z) && z < m.Length1 && x > 0
    requires CellsAre(m, seen) && WallsDown(m, near, far)
    modifies m
    ensures CellsAre(m, seen) && WallsDown(m, near, far + {H(x - 1, z)})
  {
    m[x, z] := m[x, z].(left := false);
  }

  /** The bottom wall taken down on a cell that is not in the last row. */
  method LowerBottom(m: array2<Cell>, x: int, z: int, ghost seen: set<(int, int)>, ghost near: set<Edge>, ghost far: set<Edge>)
    requires InGrid(m.Length0, x, z) && z < m.Length1 - 1
    requires CellsAre(m, seen) && WallsDown(m, near, far)
    modifies m
    ensures CellsAre(m, seen) && WallsDown(m, near + {V(x, z)}, far)
  {
    m[x, z] := m[x, z].(bottom := false);
  }

  /** The top wall taken down on a cell that is not in the first row. */
  method LowerTop(m: array2<Cell>, x: int, z: int, ghost seen: set<(int, int)>, ghost near: set<Edge>, ghost far: set<Edge>)
    requires InGrid(m.Length0, x, z) && 0 < z < m.Length1
    requires CellsAre(m, seen) && WallsDown(m, near, far)
    modifies m
    ensures CellsAre(m, seen) && WallsDown(m, near, far + {V(x, z - 1)})
  {
    m[x, z] := m[x, z].(top := false);
  }

  lemma SubsetCard<T>(a: set<T>, b: set<T>)
    requires a <= b
    ensures |a| <= |b|
  {
    assert b == a + (b - a);
  }

  ghost function Row(x: int, n: nat): set<(int, int)> {
    set z | 0 <= z < n :: (x, z)
  }

  lemma {:induction false} RowCard(x: int, n: nat)
    ensures |Row(x, n)| == n
  {
    if n > 0 {
      RowCard(x, n - 1);
      assert Row(x, n) == Row(x, n - 1) + {(x, n - 1)};
    }
  }

  ghost function Rows(a: nat, n: nat): set<(int, int)> {
    set x, z | 0 <= x < a && 0 <= z < n :: (x, z)
  }

  lemma {:induction false} RowsCard(a: nat, n: nat)
    ensures |Rows(a, n)| == a * n
  {
    if a > 0 {
      RowsCard(a - 1, n);
      RowCard(a - 1, n);
      RowsSplit(a, n);
      DisjointCard(Rows(a - 1, n), Row(a - 1, n));
      MulStep(a, n);
    }
  }

  lemma MulStep(a: nat, n: nat)
    requires a > 0
    ensures (a - 1) * n + n == a * n
  {
  }

  /** The first `a` columns are the first `a - 1` and column `a - 1`. */
  lemma RowsSplit(a: nat, n: nat)
    requires a > 0
    ensures Rows(a, n) == Rows(a - 1, n) + Row(a - 1, n)
    ensures Rows(a - 1, n) !! Row(a - 1, n)
  {
    forall p | p in Rows(a, n) ensures p in Rows(a - 1, n) + Row(a - 1, n) {
      if p.0 < a - 1 {
        assert p in Rows(a - 1, n);
      } else {
        assert p in Row(a - 1, n);
      }
    }
  }

  lemma DisjointCard<T>(a: set<T>, b: set<T>)
    requires a !! b
    ensures |a + b| == |a| + |b|
  {
  }

  /** The grid has `n * n` cells. */
  lemma GridCard(n: nat)
    ensures |Grid(n)| == n * n
  {
    RowsCard(n, n);
    assert Grid(n) == Rows(n, n);
  }

  /** The walls the exit leaves: the outer wall stands everywhere except
      the right and bottom sides of the far corner, which are open. */
  ghost predicate ClosedButExit(m: array2<Cell>)
    reads m
  {
    var n := m.Length0;
    n == m.Length1 && n >= 1 &&
    (forall x, z :: 0 <= x < n && 0 <= z < n ==>
      (x == 0 ==> m[x, z].left) && (z == 0 ==> m[x, z].top) &&
      (x == n - 1 && z < n - 1 ==> m[x, z].right) && (z == n - 1 && x < n - 1 ==> m[x, z].bottom)) &&
    !m[n - 1, n - 1].right && !m[n - 1, n - 1].bottom
  }

  /** The starting point of the search: all walls up, only `(0, 0)`
      visited. */
  method StartMaze(size: nat) returns (m: array2<Cell>)
    requires size >= 1
    ensures fresh(m) && m.Length0 == size && m.Length1 == size
    ensures Carving(m, {(0, 0)}, {})
  {
    m := InitMaze(size);
    m[0, 0] := m[0, 0].(visited := true);
  }

  /** The exit: the right and bottom walls of the far corner come down.
      They are outer walls, so the neighbours still agree and the interior
      is untouched. */
  method OpenExit(m: array2<Cell>, ghost seen: set<(int, int)>, ghost carved: set<Edge>)
    requires m.Length0 == m.Length1 >= 1 && Carving(m, seen, carved)
    modifies m
    ensures Placed(m) && Symmetric(m) && VisitedAre(m, seen) && CarvedAre(m, carved)
    ensures ClosedButExit(m)
  {
    CarvingShape(m, seen, carved);
    var n := m.Length0;
    m[n - 1, n - 1] := m[n - 1, n - 1].(right := false, bottom := false);
  }

  /** A passage joins the cell it was carved from and the cell it leads to. */
  lemma EdgeJoins(x: int, z: int, d: Direction)
    ensures var (a, b) := Ends(EdgeOf(x, z, d));
      (a == (x, z) && b == Target(x, z, d)) || (a == Target(x, z, d) && b == (x, z))
  {
  }

  ghost predicate Joined(seen: set<(int, int)>, carved: set<Edge>) {
    forall e :: e in carved ==> Ends(e).0 in seen && Ends(e).1 in seen
  }

  /** Carving from a visited cell into an unvisited one adds a passage that
      was not there before, so passages and visited cells grow together. */
  lemma StepCounts(seen: set<(int, int)>, carved: set<Edge>, x: int, z: int, d: Direction)
    requires Joined(seen, carved) && (x, z) in seen && Target(x, z, d) !in seen
    ensures EdgeOf(x, z, d) !in carved
    ensures |carved + {EdgeOf(x, z, d)}| == |carved| + 1
    ensures |seen + {Target(x, z, d)}| == |seen| + 1
    ensures Joined(seen + {Target(x, z, d)}, carved + {EdgeOf(x, z, d)})
  {
    EdgeJoins(x, z, d);
  }

  /** The passage `e` joins the cells `a` and `b`, in either order. */
  ghost predicate Connects(e: Edge, a: (int, int), b: (int, int)) {
    (Ends(e).0 == a && Ends(e).1 == b) || (Ends(e).0 == b && Ends(e).1 == a)
  }

  /** The search tree of the carving. `order` lists the visited cells once
      each, in the order they were first reached, starting at (0, 0). Every
      later cell `order[k]` was reached from an earlier cell
      `order[parent[k]]` through the passage `via[k]` (`via[0]` is unused).
      The carved passages are exactly those. With one fewer passage than
      visited cells, the passages form a spanning tree of the visited
      cells: each one links a cell to the cell it was reached from, and no
      passage is left over to close a cycle. */
  ghost predicate SearchTree(order: seq<(int, int)>, parent: seq<nat>, via: seq<Edge>,
                             seen: set<(int, int)>, carved: set<Edge>) {
    |order| >= 1 && order[0] == (0, 0) && |parent| == |order| && |via| == |order| &&
    (forall i, j :: 0 <= i < j < |order| ==> order[i] != order[j]) &&
    (forall p :: p in seen <==> p in order) &&
    (forall k :: 0 < k < |order| ==> parent[k] < k && Connects(via[k], order[parent[k]], order[k])) &&
    (forall e :: e in carved <==> exists k :: 0 < k < |order| && via[k] == e)
  }

  /** Reaching a new cell from the `j`-th visited cell through the passage
      `e` extends the search tree by one cell and one passage. */
  lemma TreeGrows(order: seq<(int, int)>, parent: seq<nat>, via: seq<Edge>,
                  seen: set<(int, int)>, carved: set<Edge>, j: nat, next: (int, int), e: Edge)
    requires SearchTree(order, parent, via, seen, carved)
    requires j < |order| && next !in seen && Connects(e, order[j], next)
    ensures SearchTree(order + [next], parent + [j], via + [e], seen + {next}, carved + {e})
  {
    var order', parent', via' := order + [next], parent + [j], via + [e];
    var n := |order|;
    forall e' | e' in carved + {e}
      ensures exists k :: 0 < k < |order'| && via'[k] == e'
    {
      if e' == e {
        assert via'[n] == e';
      } else {
        var k :| 0 < k < n && via[k] == e';
        assert via'[k] == e';
      }
    }
    forall e' | exists k :: 0 < k < |order'| && via'[k] == e'
      ensures e' in carved + {e}
    {
      var k :| 0 < k < |order'| && via'[k] == e';
      if k < n {
        assert via[k] == e';
      }
    }
  }

  /** `at[i]` is the place in `order` of the `i`-th cell on the stack. */
  ghost predicate IndexedBy(order: seq<(int, int)>, stack: seq<(int, int)>, at: seq<nat>) {
    |at| == |stack| && forall i :: 0 <= i < |stack| ==> at[i] < |order| && order[at[i]] == stack[i]
  }

  /** Pushing the newly reached cell keeps every stack cell's place. */
  lemma IndexPush(order: seq<(int, int)>, stack: seq<(int, int)>, at: seq<nat>, next: (int, int))
    requires IndexedBy(order, stack, at)
    ensures IndexedBy(order + [next], stack + [next], at + [|order|])
  {
    var order' := order + [next];
    forall i | 0 <= i < |stack|
      ensures order'[at[i]] == stack[i]
    {
      assert at[i] < |order|;
    }
  }

  /** Popping keeps the places of the cells left below. */
  lemma IndexPop(order: seq<(int, int)>, stack: seq<(int, int)>, at: seq<nat>)
    requires IndexedBy(order, stack, at) && |stack| > 0
    ensures at[|at| - 1] < |order| && order[at[|at| - 1]] == stack[|stack| - 1]
    ensures IndexedBy(order, stack[..|stack| - 1], at[..|at| - 1])
  {
  }

  /** A forward step of the search from the visited cell `(x, z)` to its
      unvisited neighbour in direction `d`: the visited cells and the
      passages each grow by one and keep their shape. */
  method Forward(m: array2<Cell>, x: int, z: int, d: Direction,
                 ghost seen: set<(int, int)>, ghost carved: set<Edge>, ghost cells: set<(int, int)>)
    returns (ghost seen': set<(int, int)>, ghost carved': set<Edge>)
    requires m.Length0 == m.Length1 && InGrid(m.Length0, x, z) && d in Neighbours(m, x, z)
    requires Carving(m, seen, carved) && Joined(seen, carved) && (x, z) in seen
    requires seen <= cells && cells == Grid(m.Length0) && |carved| + 1 == |seen|
    modifies m
    ensures seen' == seen + {Target(x, z, d)} && carved' == carved + {EdgeOf(x, z, d)}
    ensures Carving(m, seen', carved') && Joined(seen', carved')
    ensures seen' <= cells && |seen'| == |seen| + 1 && |carved'| + 1 == |seen'|
  {
    var next := Target(x, z, d);
    assert next !in seen && next in cells;
    StepCounts(seen, carved, x, z, d);
    Carve(m, x, z, d, seen, carved);
    seen', carved' := seen + {next}, carved + {EdgeOf(x, z, d)};
  }

  /** `generateMaze`: from `(0, 0)`, repeatedly step to a random unvisited
      neighbour of the current cell (knocking down the wall between them and
      pushing it), or, with none left, pop the stack into the current cell;
      stop when the stack is empty, then open the exit. The samples are the
      random numbers of the forward steps, in order.

      Returned with the maze: the visited cells and the carved passages, and
      the record of the search: the order the cells were first visited in,
      and for each the earlier cell it was reached from and the passage
      between them. Neighbours agree on every wall; the outer wall stands
      except for the exit; the passages are exactly the interior walls that
      are down and exactly the passages of that record, so they form a tree
      over the visited cells rooted at `(0, 0)`. */
  method GenerateMaze(size: nat, samples: seq<real>)
    returns (m: array2<Cell>, ghost seen: set<(int, int)>, ghost carved: set<Edge>,
             ghost order: seq<(int, int)>, ghost parent: seq<nat>, ghost via: seq<Edge>)
    requires size >= 1 && AllSamples(samples) && |samples| >= size * size
    ensures fresh(m) && m.Length0 == size && m.Length1 == size
    ensures Placed(m) && Symmetric(m) && ClosedButExit(m)
    ensures VisitedAre(m, seen) && (0, 0) in seen && seen <= Grid(size)
    ensures CarvedAre(m, carved) && |carved| + 1 == |seen|
    ensures forall e :: e in carved ==> Ends(e).0 in seen && Ends(e).1 in seen
    ensures SearchTree(order, parent, via, seen, carved)
  {
    m := StartMaze(size);
    seen, carved := {(0, 0)}, {};
    order, parent, via := [(0, 0)], [0], [H(0, 0)];
    ghost var currentAt: nat := 0;
    ghost var stackAt: seq<nat> := [0];
    var stack: seq<(int, int)> := [(0, 0)];
    var current := (0, 0);
    var pushes: nat := 0;
    ghost var cells := Grid(size);
    GridCard(size);
    assert |cells| <= |samples|;
    while |stack| > 0
      invariant Carving(m, seen, carved)
      invariant seen <= cells && (0, 0) in seen && |seen| <= |cells| <= |samples|
      invariant |carved| + 1 == |seen| && pushes + 1 == |seen|
      invariant Joined(seen, carved)
      invariant current in seen
      invariant forall p :: p in stack ==> p in seen
      invariant SearchTree(order, parent, via, seen, carved)
      invariant currentAt < |order| && order[currentAt] == current
      invariant IndexedBy(order, stack, stackAt)
      decreases |cells| - |seen|, |stack|
    {
      var (x, z) := current;
      assert current in cells;
      var ns := Neighbours(m, x, z);
      if |ns| > 0 {
        var d := ns[PickIndex(samples[pushes], |ns|)];
        var next := Target(x, z, d);
        assert d in ns;
        ghost var seen0, carved0 := seen, carved;
        seen, carved := Forward(m, x, z, d, seen, carved, cells);
        SubsetCard(seen, cells);
        assert next !in seen0;
        EdgeJoins(x, z, d);
        TreeGrows(order, parent, via, seen0, carved0, currentAt, next, EdgeOf(x, z, d));
        IndexPush(order, stack, stackAt, next);
        ghost var from := currentAt;
        currentAt := |order|;
        order, parent, via := order + [next], parent + [from], via + [EdgeOf(x, z, d)];
        stackAt := stackAt + [currentAt];
        stack := stack + [next];
        current := next;
        pushes := pushes + 1;
      } else {
        IndexPop(order, stack, stackAt);
        current := stack[|stack| - 1];
        currentAt := stackAt[|stack| - 1];
        stack := stack[..|stack| - 1];
        stackAt := stackAt[..|stackAt| - 1];
      }
    }
    OpenExit(m, seen, carved);
  }

  /** A wall piece's turn about the vertical axis: none for the walls along
      x (top and bottom), a quarter turn for the walls along z. */
  datatype Rotation = NoTurn | QuarterTurn

  datatype Wall = Wall(position: Vec3, rotation: Rotation, length: real)

  /** The world coordinate of the centre of cell column or row `i`. */
  function World(i: int): real {
    (i as real - MAZE_SIZE as real / 2.0) * CELL_SIZE
  }

  function TopWall(x: int, z: int): Wall {
    Wall(Vec3(World(x), WALL_HEIGHT / 2.0, World(z) - CELL_SIZE / 2.0), NoTurn, CELL_SIZE)
  }

  function RightWall(x: int, z: int): Wall {
    Wall(Vec3(World(x) + CELL_SIZE / 2.0, WALL_HEIGHT / 2.0, World(z)), QuarterTurn, CELL_SIZE)
  }

  function BottomWall(x: int, z: int): Wall {
    Wall(Vec3(World(x), WALL_HEIGHT / 2.0, World(z) + CELL_SIZE / 2.0), NoTurn, CELL_SIZE)
  }

  function LeftWall(x: int, z: int): Wall {
    Wall(Vec3(World(x) - CELL_SIZE / 2.0, WALL_HEIGHT / 2.0, World(z)), QuarterTurn, CELL_SIZE)
  }

  function Flag(b: bool): nat {
    if b then 1 else 0
  }

  /** The pieces one cell contributes, in the order top, right, bottom,
      left: a piece on each side whose wall stands, and only there. */
  function CellWalls(x: int, z: int, c: Cell): (ws: seq<Wall>)
    ensures |ws| == Flag(c.top) + Flag(c.right) + Flag(c.bottom) + Flag(c.left)
  {
    (if c.top then [TopWall(x, z)] else []) +
    (if c.right then [RightWall(x, z)] else []) +
    (if c.bottom then [BottomWall(x, z)] else []) +
    (if c.left then [LeftWall(x, z)] else [])
  }

  /** A cell lists a piece on a side exactly when that side's wall stands. */
  lemma CellWallsStanding(x: int, z: int, c: Cell)
    ensures TopWall(x, z) in CellWalls(x, z, c) <==> c.top
    ensures RightWall(x, z) in CellWalls(x, z, c) <==> c.right
    ensures BottomWall(x, z) in CellWalls(x, z, c) <==> c.bottom
    ensures LeftWall(x, z) in CellWalls(x, z, c) <==> c.left
  {
  }

  /** The pieces of cells `(x, 0)` to `(x, k - 1)`, in order. */
  function RowWalls(m: array2<Cell>, x: int, k: int): seq<Wall>
    requires 0 <= x < m.Length0 && 0 <= k <= m.Length1
    reads m
    decreases k
  {
    if k == 0 then [] else RowWalls(m, x, k - 1) + CellWalls(x, k - 1, m[x, k - 1])
  }

  /** The pieces of every cell in columns `0` to `k - 1`, column by column. */
  function GridWalls(m: array2<Cell>, k: int): seq<Wall>
    requires 0 <= k <= m.Length0
    reads m
    decreases k
  {
    if k == 0 then [] else GridWalls(m, k - 1) + RowWalls(m, k - 1, m.Length1)
  }

  /** The standing sides of cells `(x, 0)` to `(x, k - 1)`. */
  function RowStanding(m: array2<Cell>, x: int, k: int): nat
    requires 0 <= x < m.Length0 && 0 <= k <= m.Length1
    reads m
    decreases k
  {
    if k == 0 then 0
    else
      var c := m[x, k - 1];
      RowStanding(m, x, k - 1) + Flag(c.top) + Flag(c.right) + Flag(c.bottom) + Flag(c.left)
  }

  function GridStanding(m: array2<Cell>, k: int): nat
    requires 0 <= k <= m.Length0
    reads m
    decreases k
  {
    if k == 0 then 0 else GridStanding(m, k - 1) + RowStanding(m, k - 1, m.Length1)
  }

  lemma {:induction false} RowWallsCount(m: array2<Cell>, x: int, k: int)
    requires 0 <= x < m.Length0 && 0 <= k <= m.Length1
    ensures |RowWalls(m, x, k)| == RowStanding(m, x, k)
    decreases k
  {
    if k > 0 {
      RowWallsCount(m, x, k - 1);
    }
  }

  /** The wall list has one piece per standing cell side: a wall between
      two cells is listed once from each side. */
  lemma {:induction false} GridWallsCount(m: array2<Cell>, k: int)
    requires 0 <= k <= m.Length0
    ensures |GridWalls(m, k)| == GridStanding(m, k)
    decreases k
  {
    if k > 0 {
      GridWallsCount(m, k - 1);
      RowWallsCount(m, k - 1, m.Length1);
    }
  }

  /** The wall shared by two neighbours is listed at the same place from
      both sides. */
  lemma SharedWallsCoincide(x: int, z: int)
    ensures RightWall(x, z) == LeftWall(x + 1, z)
    ensures BottomWall(x, z) == TopWall(x, z + 1)
  {
  }

  /** The pushes for one cell, at its world position. */
  method CellPieces(x: int, z: int, cell: Cell) returns (piece: seq<Wall>)
    ensures piece == CellWalls(x, z, cell)
  {
    piece := [];
    if cell.top {
      piece := piece + [TopWall(x, z)];
    }
    if cell.right {
      piece := piece + [RightWall(x, z)];
    }
    if cell.bottom {
      piece := piece + [BottomWall(x, z)];
    }
    if cell.left {
      piece := piece + [LeftWall(x, z)];
    }
  }

  /** The wall list: for every cell, column by column, a piece for each
      standing side, in the order top, right, bottom, left. */
  method BuildWallList(m: array2<Cell>) returns (walls: seq<Wall>)
    requires m.Length0 == MAZE_SIZE && m.Length1 == MAZE_SIZE
    ensures walls == GridWalls(m, m.Length0)
    ensures |walls| == GridStanding(m, m.Length0)
  {
    walls := [];
    for x := 0 to m.Length0
      invariant walls == GridWalls(m, x)
    {
      for z := 0 to m.Length1
        invariant walls == GridWalls(m, x) + RowWalls(m, x, z)
      {
        var piece := CellPieces(x, z, m[x, z]);
        assert RowWalls(m, x, z + 1) == RowWalls(m, x, z) + piece;
        walls := walls + piece;
      }
    }
    GridWallsCount(m, m.Length0);
  }
}
