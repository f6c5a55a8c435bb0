// The sparse conductance matrix of the thermal grid
// (dramsim3/src/thermal_solver.c, calculate_Midx_array), over exact reals.
module ConductanceMatrix {
  import opened Basics

  datatype Entry = Entry(row: nat, col: nat, val: real)

  // x by z cells in each of layers planes (numLayer + 1 of them); the resistances of a
  // cell downwards, of a plane along x and z, and of the heat sink.
  datatype Grid = Grid(x: nat, z: nat, layers: nat, vert: (nat, nat, nat) -> real, horiX: nat -> real, horiZ: nat -> real,
                       amb: real)
  {
    ghost predicate Positive() {
      && 0.0 < amb && (forall i, j, l :: 0.0 < vert(i, j, l))
      && (forall l :: 0.0 < horiX(l)) && (forall l :: 0.0 < horiZ(l))
    }

    predicate Has(i: nat, j: nat, l: nat) { i < x && j < z && l < layers }

    function Node(i: nat, j: nat, l: nat): nat { l * (x * z) + j * x + i }

    // The conductance along a plane.
    function AlongX(l: nat): real
      requires Positive()
    {
      -1.0 / horiX(l)
    }

    function AlongZ(l: nat): real
      requires Positive()
    {
      -1.0 / horiZ(l)
    }
  }

  // ------------------------------------------------------------ one row

  // The neighbours, in the order in which the source writes them.
  function Under(g: Grid, i: nat, j: nat, l: nat): seq<Entry>
    requires g.Positive()
  {
    if l == 0 then []
    else [Entry(g.Node(i, j, l), g.Node(i, j, l - 1), -1.0 / (g.vert(i, j, l) / 2.0 + g.vert(i, j, l - 1) / 2.0))]
  }

  function Behind(g: Grid, i: nat, j: nat, l: nat): seq<Entry>
    requires g.Positive()
  {
    if j == 0 then [] else [Entry(g.Node(i, j, l), g.Node(i, j - 1, l), g.AlongZ(l))]
  }

  function Left(g: Grid, i: nat, j: nat, l: nat): seq<Entry>
    requires g.Positive()
  {
    if i == 0 then [] else [Entry(g.Node(i, j, l), g.Node(i - 1, j, l), g.AlongX(l))]
  }

  function Right(g: Grid, i: nat, j: nat, l: nat): seq<Entry>
    requires g.Positive()
  {
    if i + 1 < g.x then [Entry(g.Node(i, j, l), g.Node(i + 1, j, l), g.AlongX(l))] else []
  }

  function Ahead(g: Grid, i: nat, j: nat, l: nat): seq<Entry>
    requires g.Positive()
  {
    if j + 1 < g.z then [Entry(g.Node(i, j, l), g.Node(i, j + 1, l), g.AlongZ(l))] else []
  }

  function Over(g: Grid, i: nat, j: nat, l: nat): seq<Entry>
    requires g.Positive()
  {
    if l + 1 < g.layers
    then [Entry(g.Node(i, j, l), g.Node(i, j, l + 1), -1.0 / (g.vert(i, j, l) / 2.0 + g.vert(i, j, l + 1) / 2.0))]
    else []
  }

  function Before(g: Grid, i: nat, j: nat, l: nat): seq<Entry>
    requires g.Positive()
  {
    Under(g, i, j, l) + Behind(g, i, j, l) + Left(g, i, j, l)
  }

  function After(g: Grid, i: nat, j: nat, l: nat): seq<Entry>
    requires g.Positive()
  {
    Right(g, i, j, l) + Ahead(g, i, j, l) + Over(g, i, j, l)
  }

  function Sum(q: seq<Entry>): real { if q == [] then 0.0 else Sum(q[..|q| - 1]) + q[|q| - 1].val }

  function Diagonal(g: Grid, i: nat, j: nat, l: nat): Entry
    requires g.Positive()
  {
    var n := g.Node(i, j, l);
    Entry(n, n, 0.0 - Sum(Before(g, i, j, l) + After(g, i, j, l)) + if n < g.x * g.z then 1.0 / g.amb else 0.0)
  }

  // The last entry moves down past every entry of a greater column.
  function Sift(q: seq<Entry>, e: Entry): seq<Entry> {
    if q == [] || q[|q| - 1].col <= e.col then q + [e] else Sift(q[..|q| - 1], e) + [q[|q| - 1]]
  }

  function Row(g: Grid, i: nat, j: nat, l: nat): seq<Entry>
    requires g.Positive()
  {
    Sift(Before(g, i, j, l) + After(g, i, j, l), Diagonal(g, i, j, l))
  }

  // ------------------------------------------------------------ all rows

  // The first i rows of a line, the first j lines of a plane, the first l planes.
  function Line(g: Grid, l: nat, j: nat, i: nat): seq<Entry>
    requires g.Positive()
  {
    if i == 0 then [] else Line(g, l, j, i - 1) + Row(g, i - 1, j, l)
  }

  function Plane(g: Grid, l: nat, j: nat): seq<Entry>
    requires g.Positive()
  {
    if j == 0 then [] else Plane(g, l, j - 1) + Line(g, l, j - 1, g.x)
  }

  function Planes(g: Grid, l: nat): seq<Entry>
    requires g.Positive()
  {
    if l == 0 then [] else Planes(g, l - 1) + Plane(g, l - 1, g.z)
  }

  function Matrix(g: Grid): seq<Entry>
    requires g.Positive()
  {
    Planes(g, g.layers)
  }

  // ------------------------------------------------------------ node numbers

  lemma Times(a: nat, b: nat, c: nat)
    requires a < b
    ensures a * c + c <= b * c
  {
    Distribute(a + 1, b - a - 1, c);
    Distribute(a, 1, c);
  }

  lemma NodeSteps(g: Grid, i: nat, j: nat, l: nat)
    ensures l > 0 ==> g.Node(i, j, l - 1) == g.Node(i, j, l) - g.x * g.z
    ensures j > 0 ==> g.Node(i, j - 1, l) == g.Node(i, j, l) - g.x
    ensures i > 0 ==> g.Node(i - 1, j, l) == g.Node(i, j, l) - 1
    ensures g.Node(i + 1, j, l) == g.Node(i, j, l) + 1
    ensures g.Node(i, j + 1, l) == g.Node(i, j, l) + g.x
    ensures g.Node(i, j, l + 1) == g.Node(i, j, l) + g.x * g.z
  {
  }

  // A plane is larger than a line, and a line than a cell, whenever there is a
  // neighbour to tell them apart.
  lemma Strides(g: Grid, i: nat, j: nat)
    requires i < g.x && j < g.z
    ensures (0 < j || j + 1 < g.z) ==> g.x < g.x * g.z
    ensures (0 < i || i + 1 < g.x) ==> 1 < g.x
    ensures 1 <= g.x <= g.x * g.z
  {
    Times(0, g.z, g.x);
    if 1 < g.z {
      Times(1, g.z, g.x);
    }
  }

  lemma NodeInPlane(g: Grid, i: nat, j: nat, l: nat)
    requires i < g.x && j < g.z
    ensures l * (g.x * g.z) <= g.Node(i, j, l) < l * (g.x * g.z) + g.x * g.z
  {
    Times(j, g.z, g.x);
  }

  lemma HeatSinkRows(g: Grid, i: nat, j: nat, l: nat)
    requires i < g.x && j < g.z
    ensures g.Node(i, j, l) < g.x * g.z <==> l == 0
  {
    NodeInPlane(g, i, j, l);
    if l > 0 {
      Times(0, l, g.x * g.z);
    }
  }

  // ------------------------------------------------------------ one row, sorted

  predicate Ascending(q: seq<Entry>) { forall a, b :: 0 <= a < b < |q| ==> q[a].col < q[b].col }

  predicate ColsBelow(q: seq<Entry>, n: nat) { forall e :: e in q ==> e.col < n }

  predicate ColsAbove(q: seq<Entry>, n: nat) { forall e :: e in q ==> n < e.col }

  lemma BeforeSorted(g: Grid, i: nat, j: nat, l: nat)
    requires g.Positive() && g.Has(i, j, l)
    ensures Ascending(Before(g, i, j, l)) && ColsBelow(Before(g, i, j, l), g.Node(i, j, l))
  {
    NodeSteps(g, i, j, l);
    Strides(g, i, j);
    hide g.Node;
  }

  lemma AfterSorted(g: Grid, i: nat, j: nat, l: nat)
    requires g.Positive() && g.Has(i, j, l)
    ensures Ascending(After(g, i, j, l)) && ColsAbove(After(g, i, j, l), g.Node(i, j, l))
  {
    NodeSteps(g, i, j, l);
    Strides(g, i, j);
    hide g.Node;
  }

  lemma {:induction false} SiftBetween(a: seq<Entry>, b: seq<Entry>, e: Entry)
    requires ColsBelow(a, e.col) && ColsAbove(b, e.col)
    ensures Sift(a + b, e) == a + [e] + b
  {
    if b == [] {
      assert a + b == a;
      assert a + [e] + b == a + [e];
    } else {
      var m := |b| - 1;
      assert (a + b)[..|a + b| - 1] == a + b[..m];
      SiftBetween(a, b[..m], e);
      assert (a + b)[|a + b| - 1] == b[m] && b[m] in b;
      assert a + [e] + b == (a + [e] + b[..m]) + [b[m]];
    }
  }

  // The swaps leave the diagonal between the neighbours before and after it.
  lemma RowIs(g: Grid, i: nat, j: nat, l: nat)
    requires g.Positive() && g.Has(i, j, l)
    ensures Row(g, i, j, l) == Before(g, i, j, l) + [Diagonal(g, i, j, l)] + After(g, i, j, l)
  {
    BeforeSorted(g, i, j, l);
    AfterSorted(g, i, j, l);
    SiftBetween(Before(g, i, j, l), After(g, i, j, l), Diagonal(g, i, j, l));
  }

  lemma AscendingAround(a: seq<Entry>, e: Entry, b: seq<Entry>)
    requires Ascending(a) && Ascending(b) && ColsBelow(a, e.col) && ColsAbove(b, e.col)
    ensures Ascending(a + [e] + b)
  {
    var q := a + [e] + b;
    forall s, t | 0 <= s < t < |q|
      ensures q[s].col < q[t].col
    {
      if s < |a| {
        assert a[s] in a;
      }
      if t > |a| {
        assert b[t - |a| - 1] in b;
      }
    }
  }

  // ------------------------------------------------------------ order of the matrix

  predicate Earlier(a: Entry, b: Entry) { a.row < b.row || (a.row == b.row && a.col < b.col) }

  predicate Ordered(q: seq<Entry>) { forall a, b :: 0 <= a < b < |q| ==> Earlier(q[a], q[b]) }

  predicate RowsIn(q: seq<Entry>, lo: nat, hi: nat) { forall e :: e in q ==> lo <= e.row < hi }

  lemma Join(p: seq<Entry>, q: seq<Entry>, lo: nat, mid: nat, hi: nat)
    requires Ordered(p) && RowsIn(p, lo, mid) && Ordered(q) && RowsIn(q, mid, hi) && lo <= mid <= hi
    ensures Ordered(p + q) && RowsIn(p + q, lo, hi)
  {
    forall a, b | 0 <= a < b < |p + q|
      ensures Earlier((p + q)[a], (p + q)[b])
    {
      if a < |p| <= b {
        assert p[a] in p && q[b - |p|] in q;
      }
    }
  }

  predicate RowsAre(q: seq<Entry>, n: nat) { forall e :: e in q ==> e.row == n }

  lemma NeighbourRows(g: Grid, i: nat, j: nat, l: nat)
    requires g.Positive()
    ensures RowsAre(Before(g, i, j, l), g.Node(i, j, l)) && RowsAre(After(g, i, j, l), g.Node(i, j, l))
    ensures Diagonal(g, i, j, l).row == Diagonal(g, i, j, l).col == g.Node(i, j, l)
  {
    hide g.Node, Sum;
  }

  lemma RowsAround(a: seq<Entry>, e: Entry, b: seq<Entry>, n: nat)
    requires RowsAre(a, n) && RowsAre(b, n) && e.row == n
    ensures RowsIn(a + [e] + b, n, n + 1)
  {
  }

  lemma RowEntries(g: Grid, i: nat, j: nat, l: nat)
    requires g.Positive() && g.Has(i, j, l)
    ensures Ascending(Row(g, i, j, l)) && RowsIn(Row(g, i, j, l), g.Node(i, j, l), g.Node(i, j, l) + 1)
  {
    hide *;
    RowIs(g, i, j, l);
    BeforeSorted(g, i, j, l);
    AfterSorted(g, i, j, l);
    NeighbourRows(g, i, j, l);
    AscendingAround(Before(g, i, j, l), Diagonal(g, i, j, l), After(g, i, j, l));
    RowsAround(Before(g, i, j, l), Diagonal(g, i, j, l), After(g, i, j, l), g.Node(i, j, l));
  }

  lemma RowOrdered(g: Grid, i: nat, j: nat, l: nat)
    requires g.Positive() && g.Has(i, j, l)
    ensures Ordered(Row(g, i, j, l)) && RowsIn(Row(g, i, j, l), g.Node(i, j, l), g.Node(i, j, l) + 1)
  {
    RowEntries(g, i, j, l);
    hide Row, g.Node;
    var q := Row(g, i, j, l);
    forall a, b | 0 <= a < b < |q|
      ensures Earlier(q[a], q[b])
    {
      assert q[a] in q && q[b] in q;
    }
  }

  lemma NodeStart(g: Grid, j: nat, l: nat)
    ensures g.Node(0, 0, l) == l * (g.x * g.z)
    ensures g.Node(g.x, j, l) == g.Node(0, j + 1, l)
    ensures g.Node(0, g.z, l) == g.Node(0, 0, l + 1)
  {
    Distribute(j, 1, g.x);
    Distribute(l, 1, g.x * g.z);
  }

  lemma NodeFrom(g: Grid, i: nat, j: nat, l: nat)
    ensures g.Node(i, j, l) == g.Node(0, j, l) + i && g.Node(0, j, l) == g.Node(0, 0, l) + j * g.x
  {
  }

  lemma NoRows(n: nat)
    ensures Ordered([]) && RowsIn([], n, n)
  {
  }

  lemma LineMore(g: Grid, l: nat, j: nat, i: nat)
    requires g.Positive()
    ensures Line(g, l, j, 0) == [] && (i > 0 ==> Line(g, l, j, i) == Line(g, l, j, i - 1) + Row(g, i - 1, j, l))
  {
  }

  lemma PlaneMore(g: Grid, l: nat, j: nat)
    requires g.Positive()
    ensures Plane(g, l, 0) == [] && (j > 0 ==> Plane(g, l, j) == Plane(g, l, j - 1) + Line(g, l, j - 1, g.x))
  {
  }

  lemma PlanesMore(g: Grid, l: nat)
    requires g.Positive()
    ensures Planes(g, 0) == [] && (l > 0 ==> Planes(g, l) == Planes(g, l - 1) + Plane(g, l - 1, g.z))
  {
  }

  lemma HasIs(g: Grid, i: nat, j: nat, l: nat)
    ensures g.Has(i, j, l) <==> i < g.x && j < g.z && l < g.layers
  {
  }

  // Nodes follow one another along a line, from line to line and from plane to plane.
  lemma NodeOrder(g: Grid, i: nat, j: nat, l: nat)
    ensures g.Node(i + 1, j, l) == g.Node(i, j, l) + 1
    ensures g.Node(0, 0, l) <= g.Node(0, j, l) <= g.Node(i, j, l)
    ensures g.Node(g.x, j, l) == g.Node(0, j + 1, l) && g.Node(0, g.z, l) == g.Node(0, 0, l + 1)
    ensures g.Node(0, 0, 0) == 0
  {
    NodeStart(g, j, l);
    NodeFrom(g, i, j, l);
  }

  lemma {:induction false} LineOrdered(g: Grid, l: nat, j: nat, i: nat)
    requires g.Positive() && j < g.z && l < g.layers && i <= g.x
    ensures Ordered(Line(g, l, j, i)) && RowsIn(Line(g, l, j, i), g.Node(0, j, l), g.Node(i, j, l))
  {
    hide *;
    LineMore(g, l, j, i);
    if i == 0 {
      NoRows(g.Node(0, j, l));
    } else {
      LineOrdered(g, l, j, i - 1);
      HasIs(g, i - 1, j, l);
      RowOrdered(g, i - 1, j, l);
      NodeOrder(g, i - 1, j, l);
      Join(Line(g, l, j, i - 1), Row(g, i - 1, j, l), g.Node(0, j, l), g.Node(i - 1, j, l), g.Node(i, j, l));
    }
  }

  lemma {:induction false} PlaneOrdered(g: Grid, l: nat, j: nat)
    requires g.Positive() && l < g.layers && j <= g.z
    ensures Ordered(Plane(g, l, j)) && RowsIn(Plane(g, l, j), g.Node(0, 0, l), g.Node(0, j, l))
  {
    hide *;
    PlaneMore(g, l, j);
    if j == 0 {
      NoRows(g.Node(0, 0, l));
    } else {
      PlaneOrdered(g, l, j - 1);
      LineOrdered(g, l, j - 1, g.x);
      NodeOrder(g, g.x, j - 1, l);
      Join(Plane(g, l, j - 1), Line(g, l, j - 1, g.x), g.Node(0, 0, l), g.Node(0, j - 1, l), g.Node(0, j, l));
    }
  }

  lemma {:induction false} PlanesOrdered(g: Grid, l: nat)
    requires g.Positive() && l <= g.layers
    ensures Ordered(Planes(g, l)) && RowsIn(Planes(g, l), 0, g.Node(0, 0, l))
  {
    hide *;
    PlanesMore(g, l);
    if l == 0 {
      NodeOrder(g, 0, 0, 0);
      NoRows(0);
    } else {
      PlanesOrdered(g, l - 1);
      PlaneOrdered(g, l - 1, g.z);
      NodeOrder(g, 0, g.z, l - 1);
      Join(Planes(g, l - 1), Plane(g, l - 1, g.z), 0, g.Node(0, 0, l - 1), g.Node(0, 0, l));
    }
  }

  // Entries are ordered by row and, within a row, strictly by column; so no position
  // of the matrix is written twice.
  lemma MatrixOrdered(g: Grid)
    requires g.Positive()
    ensures Ordered(Matrix(g)) && RowsIn(Matrix(g), 0, g.layers * (g.x * g.z))
  {
    PlanesOrdered(g, g.layers);
    NodeStart(g, 0, g.layers);
  }

  // ------------------------------------------------------------ what is in the matrix

  lemma {:induction false} InLine(g: Grid, l: nat, j: nat, n: nat, e: Entry)
    requires g.Positive() && n <= g.x
    ensures e in Line(g, l, j, n) <==> exists i: nat :: i < n && e in Row(g, i, j, l)
  {
    hide *;
    LineMore(g, l, j, n);
    if n > 0 {
      InLine(g, l, j, n - 1, e);
    }
  }

  ghost predicate OnLine(g: Grid, j: nat, l: nat, e: Entry)
    requires g.Positive()
  {
    exists i: nat :: i < g.x && e in Row(g, i, j, l)
  }

  ghost predicate OnPlane(g: Grid, l: nat, e: Entry)
    requires g.Positive()
  {
    exists j: nat :: j < g.z && OnLine(g, j, l, e)
  }

  lemma InFullLine(g: Grid, l: nat, j: nat, e: Entry)
    requires g.Positive()
    ensures e in Line(g, l, j, g.x) <==> OnLine(g, j, l, e)
  {
    InLine(g, l, j, g.x, e);
  }

  lemma {:induction false} InPlane(g: Grid, l: nat, n: nat, e: Entry)
    requires g.Positive()
    ensures e in Plane(g, l, n) <==> exists j: nat :: j < n && OnLine(g, j, l, e)
  {
    hide *;
    PlaneMore(g, l, n);
    if n > 0 {
      InPlane(g, l, n - 1, e);
      InFullLine(g, l, n - 1, e);
    }
  }

  lemma InFullPlane(g: Grid, l: nat, e: Entry)
    requires g.Positive()
    ensures e in Plane(g, l, g.z) <==> OnPlane(g, l, e)
  {
    InPlane(g, l, g.z, e);
  }

  lemma {:induction false} InPlanes(g: Grid, n: nat, e: Entry)
    requires g.Positive()
    ensures e in Planes(g, n) <==> exists l: nat :: l < n && OnPlane(g, l, e)
  {
    hide *;
    PlanesMore(g, n);
    if n > 0 {
      InPlanes(g, n - 1, e);
      InFullPlane(g, n - 1, e);
    }
  }

  // The matrix holds the rows of all cells.
  lemma InMatrix(g: Grid, e: Entry)
    requires g.Positive()
    ensures e in Matrix(g) <==> exists i: nat, j: nat, l: nat :: g.Has(i, j, l) && e in Row(g, i, j, l)
  {
    hide Row;
    InPlanes(g, g.layers, e);
    if i: nat, j: nat, l: nat :| g.Has(i, j, l) && e in Row(g, i, j, l) {
      assert OnLine(g, j, l, e);
      assert OnPlane(g, l, e);
    }
    if l: nat :| l < g.layers && OnPlane(g, l, e) {
      var j: nat :| j < g.z && OnLine(g, j, l, e);
      var i: nat :| i < g.x && e in Row(g, i, j, l);
      assert g.Has(i, j, l);
    }
  }

  lemma InRow(g: Grid, i: nat, j: nat, l: nat, e: Entry)
    requires g.Positive() && g.Has(i, j, l)
    ensures e in Row(g, i, j, l) <==> e == Diagonal(g, i, j, l) || e in Before(g, i, j, l) || e in After(g, i, j, l)
  {
    RowIs(g, i, j, l);
  }

  function Mirror(e: Entry): Entry { Entry(e.col, e.row, e.val) }

  // Each neighbour lists the cell in return, with the same conductance.
  lemma BeforeMirrored(g: Grid, i: nat, j: nat, l: nat, e: Entry)
    requires g.Positive() && g.Has(i, j, l) && e in Before(g, i, j, l)
    ensures || (l > 0 && Mirror(e) in After(g, i, j, l - 1))
            || (j > 0 && Mirror(e) in After(g, i, j - 1, l))
            || (i > 0 && Mirror(e) in After(g, i - 1, j, l))
  {
    hide g.Node;
  }

  lemma AfterMirrored(g: Grid, i: nat, j: nat, l: nat, e: Entry)
    requires g.Positive() && g.Has(i, j, l) && e in After(g, i, j, l)
    ensures || (l + 1 < g.layers && Mirror(e) in Before(g, i, j, l + 1))
            || (j + 1 < g.z && Mirror(e) in Before(g, i, j + 1, l))
            || (i + 1 < g.x && Mirror(e) in Before(g, i + 1, j, l))
  {
    hide g.Node;
  }

  lemma MirrorIn(g: Grid, i: nat, j: nat, l: nat, e: Entry)
    requires g.Positive() && g.Has(i, j, l) && e in Row(g, i, j, l)
    ensures exists i': nat, j': nat, l': nat :: g.Has(i', j', l') && Mirror(e) in Row(g, i', j', l')
  {
    hide Row, Before, After, Diagonal;
    InRow(g, i, j, l, e);
    if e in Before(g, i, j, l) {
      BeforeMirrored(g, i, j, l, e);
      if l > 0 && Mirror(e) in After(g, i, j, l - 1) {
        InRow(g, i, j, l - 1, Mirror(e));
      } else if j > 0 && Mirror(e) in After(g, i, j - 1, l) {
        InRow(g, i, j - 1, l, Mirror(e));
      } else {
        InRow(g, i - 1, j, l, Mirror(e));
      }
    } else if e in After(g, i, j, l) {
      AfterMirrored(g, i, j, l, e);
      if l + 1 < g.layers && Mirror(e) in Before(g, i, j, l + 1) {
        InRow(g, i, j, l + 1, Mirror(e));
      } else if j + 1 < g.z && Mirror(e) in Before(g, i, j + 1, l) {
        InRow(g, i, j + 1, l, Mirror(e));
      } else {
        InRow(g, i + 1, j, l, Mirror(e));
      }
    } else {
      DiagonalMirrors(g, i, j, l);
    }
  }

  lemma DiagonalMirrors(g: Grid, i: nat, j: nat, l: nat)
    requires g.Positive()
    ensures Mirror(Diagonal(g, i, j, l)) == Diagonal(g, i, j, l)
  {
  }

  lemma MirroredOnce(g: Grid, e: Entry)
    requires g.Positive() && e in Matrix(g)
    ensures Mirror(e) in Matrix(g)
  {
    hide *;
    InMatrix(g, e);
    var i: nat, j: nat, l: nat :| g.Has(i, j, l) && e in Row(g, i, j, l);
    MirrorIn(g, i, j, l, e);
    InMatrix(g, Mirror(e));
  }

  // The matrix is symmetric.
  lemma MatrixSymmetric(g: Grid, e: Entry)
    requires g.Positive()
    ensures e in Matrix(g) <==> Mirror(e) in Matrix(g)
  {
    assert Mirror(Mirror(e)) == e;
    if e in Matrix(g) {
      MirroredOnce(g, e);
    }
    if Mirror(e) in Matrix(g) {
      MirroredOnce(g, Mirror(e));
    }
  }

  // e joins the cell to the next one along x, along z or above it: the conductance is
  // that of the plane's resistance along the axis, or of the two halves of the cells'
  // vertical resistances.
  ghost predicate Joins(g: Grid, i: nat, j: nat, l: nat, e: Entry)
    requires g.Positive()
  {
    var n := l * (g.x * g.z) + j * g.x + i;
    && i < g.x && j < g.z && l < g.layers && e.row == n
    && (|| (i + 1 < g.x && e.col == n + 1 && e.val == -1.0 / g.horiX(l))
        || (j + 1 < g.z && e.col == n + g.x && e.val == -1.0 / g.horiZ(l))
        || (l + 1 < g.layers && e.col == n + g.x * g.z && e.val == -1.0 / (g.vert(i, j, l) / 2.0 + g.vert(i, j, l + 1) / 2.0)))
  }

  lemma AfterJoins(g: Grid, i: nat, j: nat, l: nat, e: Entry)
    requires g.Positive() && g.Has(i, j, l)
    ensures e in After(g, i, j, l) <==> Joins(g, i, j, l, e)
  {
    NodeSteps(g, i, j, l);
  }

  // Above the diagonal the matrix holds the conductance between each cell and the
  // next one of each axis, and nothing else. (Below it, symmetry gives the same.)
  lemma NeighbourValues(g: Grid, e: Entry)
    requires g.Positive()
    ensures e in Matrix(g) && e.row < e.col <==> exists i: nat, j: nat, l: nat :: Joins(g, i, j, l, e)
  {
    hide *;
    InMatrix(g, e);
    if e in Matrix(g) && e.row < e.col {
      var i: nat, j: nat, l: nat :| g.Has(i, j, l) && e in Row(g, i, j, l);
      UpperIsAfter(g, i, j, l, e);
      AfterJoins(g, i, j, l, e);
    }
    if i: nat, j: nat, l: nat :| Joins(g, i, j, l, e) {
      JoinsHas(g, i, j, l, e);
      AfterJoins(g, i, j, l, e);
      InRow(g, i, j, l, e);
      AfterIsUpper(g, i, j, l, e);
    }
  }

  lemma JoinsHas(g: Grid, i: nat, j: nat, l: nat, e: Entry)
    requires g.Positive() && Joins(g, i, j, l, e)
    ensures g.Has(i, j, l)
  {
  }

  lemma UpperIsAfter(g: Grid, i: nat, j: nat, l: nat, e: Entry)
    requires g.Positive() && g.Has(i, j, l) && e in Row(g, i, j, l) && e.row < e.col
    ensures e in After(g, i, j, l)
  {
    InRow(g, i, j, l, e);
    NeighbourRows(g, i, j, l);
    BeforeSorted(g, i, j, l);
    hide Before, After, Diagonal, Row, g.Node;
  }

  lemma AfterIsUpper(g: Grid, i: nat, j: nat, l: nat, e: Entry)
    requires g.Positive() && g.Has(i, j, l) && e in After(g, i, j, l)
    ensures e.row < e.col
  {
    NeighbourRows(g, i, j, l);
    AfterSorted(g, i, j, l);
    hide Before, After, Diagonal, Row, g.Node;
  }

  // ------------------------------------------------------------ signs and row sums

  lemma NegativeNeighbours(g: Grid, i: nat, j: nat, l: nat, e: Entry)
    requires g.Positive() && (e in Before(g, i, j, l) || e in After(g, i, j, l))
    ensures e.val < 0.0
  {
    hide g.Node;
  }

  lemma {:induction false} SumNegative(q: seq<Entry>)
    requires forall e :: e in q ==> e.val < 0.0
    ensures Sum(q) <= 0.0 && (q != [] ==> Sum(q) < 0.0)
  {
    if q != [] {
      SumNegative(q[..|q| - 1]);
      assert q[|q| - 1] in q;
    }
  }

  lemma NeighboursNegative(g: Grid, i: nat, j: nat, l: nat)
    requires g.Positive()
    ensures Sum(Before(g, i, j, l) + After(g, i, j, l)) <= 0.0
    ensures Before(g, i, j, l) + After(g, i, j, l) != [] ==> Sum(Before(g, i, j, l) + After(g, i, j, l)) < 0.0
  {
    hide *;
    var q := Before(g, i, j, l) + After(g, i, j, l);
    forall e | e in q
      ensures e.val < 0.0
    {
      NegativeNeighbours(g, i, j, l, e);
    }
    SumNegative(q);
  }

  lemma HasUpper(g: Grid, i: nat, j: nat, l: nat)
    requires g.Positive() && l > 0
    ensures Before(g, i, j, l) + After(g, i, j, l) != []
  {
    hide g.Node;
  }

  lemma DiagonalValue(g: Grid, i: nat, j: nat, l: nat)
    requires g.Positive() && g.Has(i, j, l)
    ensures Diagonal(g, i, j, l).val ==
            0.0 - Sum(Before(g, i, j, l) + After(g, i, j, l)) + if l == 0 then 1.0 / g.amb else 0.0
  {
    HeatSinkRows(g, i, j, l);
    hide g.Node, Sum, Before, After;
  }

  lemma DiagonalPositive(g: Grid, i: nat, j: nat, l: nat)
    requires g.Positive() && g.Has(i, j, l)
    ensures Diagonal(g, i, j, l).val > 0.0
  {
    DiagonalValue(g, i, j, l);
    NeighboursNegative(g, i, j, l);
    if l > 0 {
      HasUpper(g, i, j, l);
    }
    assert 1.0 / g.amb > 0.0;
    hide Sum, Before, After, Diagonal;
  }

  // Off the diagonal every entry is negative, on it every entry is positive.
  lemma Signs(g: Grid, e: Entry)
    requires g.Positive() && e in Matrix(g)
    ensures if e.row == e.col then e.val > 0.0 else e.val < 0.0
  {
    hide *;
    InMatrix(g, e);
    var i: nat, j: nat, l: nat :| g.Has(i, j, l) && e in Row(g, i, j, l);
    InRow(g, i, j, l, e);
    NeighbourRows(g, i, j, l);
    if e == Diagonal(g, i, j, l) {
      DiagonalPositive(g, i, j, l);
    } else {
      NegativeNeighbours(g, i, j, l, e);
      OffDiagonal(g, i, j, l, e);
    }
  }

  lemma OffDiagonal(g: Grid, i: nat, j: nat, l: nat, e: Entry)
    requires g.Positive() && g.Has(i, j, l) && (e in Before(g, i, j, l) || e in After(g, i, j, l))
    ensures e.row != e.col
  {
    NeighbourRows(g, i, j, l);
    BeforeSorted(g, i, j, l);
    AfterSorted(g, i, j, l);
    hide g.Node, Before, After;
  }

  // The sum of the entries of row r.
  function RowSum(q: seq<Entry>, r: nat): real {
    if q == [] then 0.0 else RowSum(q[..|q| - 1], r) + if q[|q| - 1].row == r then q[|q| - 1].val else 0.0
  }

  lemma {:induction false} SumJoin(p: seq<Entry>, q: seq<Entry>)
    ensures Sum(p + q) == Sum(p) + Sum(q)
  {
    if q == [] {
      assert p + q == p;
    } else {
      assert (p + q)[..|p + q| - 1] == p + q[..|q| - 1];
      SumJoin(p, q[..|q| - 1]);
    }
  }

  lemma {:induction false} RowSumJoin(p: seq<Entry>, q: seq<Entry>, r: nat)
    ensures RowSum(p + q, r) == RowSum(p, r) + RowSum(q, r)
  {
    if q == [] {
      assert p + q == p;
    } else {
      assert (p + q)[..|p + q| - 1] == p + q[..|q| - 1];
      RowSumJoin(p, q[..|q| - 1], r);
    }
  }

  lemma {:induction false} OtherRows(q: seq<Entry>, lo: nat, hi: nat, r: nat)
    requires RowsIn(q, lo, hi) && !(lo <= r < hi)
    ensures RowSum(q, r) == 0.0
  {
    if q != [] {
      OtherRows(q[..|q| - 1], lo, hi, r);
      assert q[|q| - 1] in q;
    }
  }

  lemma {:induction false} OwnRow(q: seq<Entry>, r: nat)
    requires RowsIn(q, r, r + 1)
    ensures RowSum(q, r) == Sum(q)
  {
    if q != [] {
      OwnRow(q[..|q| - 1], r);
      assert q[|q| - 1] in q;
    }
  }

  lemma SumOne(e: Entry)
    ensures Sum([e]) == e.val
  {
    assert [e][..0] == [];
  }

  lemma OneRowSum(g: Grid, i: nat, j: nat, l: nat)
    requires g.Positive() && g.Has(i, j, l)
    ensures RowSum(Row(g, i, j, l), g.Node(i, j, l)) == if l == 0 then 1.0 / g.amb else 0.0
  {
    hide *;
    RowOrdered(g, i, j, l);
    OwnRow(Row(g, i, j, l), g.Node(i, j, l));
    RowIs(g, i, j, l);
    var a, d, b := Before(g, i, j, l), Diagonal(g, i, j, l), After(g, i, j, l);
    SumJoin(a + [d], b);
    SumJoin(a, [d]);
    SumOne(d);
    SumJoin(a, b);
    DiagonalValue(g, i, j, l);
  }

  lemma {:induction false} LineSum(g: Grid, l: nat, j: nat, n: nat, i: nat)
    requires g.Positive() && g.Has(i, j, l) && i < n <= g.x
    ensures RowSum(Line(g, l, j, n), g.Node(i, j, l)) == if l == 0 then 1.0 / g.amb else 0.0
  {
    hide *;
    HasIs(g, i, j, l);
    HasIs(g, n - 1, j, l);
    LineMore(g, l, j, n);
    var r := g.Node(i, j, l);
    RowSumJoin(Line(g, l, j, n - 1), Row(g, n - 1, j, l), r);
    NodeFrom(g, i, j, l);
    NodeFrom(g, n - 1, j, l);
    if i < n - 1 {
      LineSum(g, l, j, n - 1, i);
      RowOrdered(g, n - 1, j, l);
      OtherRows(Row(g, n - 1, j, l), g.Node(n - 1, j, l), g.Node(n - 1, j, l) + 1, r);
    } else {
      OneRowSum(g, i, j, l);
      LineOrdered(g, l, j, i);
      OtherRows(Line(g, l, j, i), g.Node(0, j, l), g.Node(i, j, l), r);
    }
  }

  lemma LineSpan(g: Grid, i: nat, j: nat, l: nat, n: nat)
    requires i < g.x
    ensures j < n ==> g.Node(i, j, l) < g.Node(0, n, l)
    ensures g.Node(0, j, l) <= g.Node(i, j, l)
  {
    if j < n {
      Times(j, n, g.x);
    }
  }

  lemma {:induction false} PlaneSum(g: Grid, l: nat, n: nat, i: nat, j: nat)
    requires g.Positive() && g.Has(i, j, l) && j < n <= g.z
    ensures RowSum(Plane(g, l, n), g.Node(i, j, l)) == if l == 0 then 1.0 / g.amb else 0.0
  {
    hide *;
    HasIs(g, i, j, l);
    PlaneMore(g, l, n);
    var r := g.Node(i, j, l);
    RowSumJoin(Plane(g, l, n - 1), Line(g, l, n - 1, g.x), r);
    LineSpan(g, i, j, l, n - 1);
    if j < n - 1 {
      PlaneSum(g, l, n - 1, i, j);
      LineOrdered(g, l, n - 1, g.x);
      OtherRows(Line(g, l, n - 1, g.x), g.Node(0, n - 1, l), g.Node(g.x, n - 1, l), r);
    } else {
      LineSum(g, l, j, g.x, i);
      PlaneOrdered(g, l, j);
      OtherRows(Plane(g, l, j), g.Node(0, 0, l), g.Node(0, j, l), r);
    }
  }

  lemma PlaneSpan(g: Grid, i: nat, j: nat, l: nat, n: nat)
    requires i < g.x && j < g.z
    ensures l < n ==> g.Node(i, j, l) < g.Node(0, 0, n)
    ensures g.Node(0, 0, l) <= g.Node(i, j, l)
  {
    NodeInPlane(g, i, j, l);
    if l < n {
      Times(l, n, g.x * g.z);
    }
  }

  lemma {:induction false} PlanesSum(g: Grid, n: nat, i: nat, j: nat, l: nat)
    requires g.Positive() && g.Has(i, j, l) && l < n <= g.layers
    ensures RowSum(Planes(g, n), g.Node(i, j, l)) == if l == 0 then 1.0 / g.amb else 0.0
  {
    hide *;
    HasIs(g, i, j, l);
    PlanesMore(g, n);
    var r := g.Node(i, j, l);
    RowSumJoin(Planes(g, n - 1), Plane(g, n - 1, g.z), r);
    PlaneSpan(g, i, j, l, n - 1);
    if l < n - 1 {
      PlanesSum(g, n - 1, i, j, l);
      PlaneOrdered(g, n - 1, g.z);
      OtherRows(Plane(g, n - 1, g.z), g.Node(0, 0, n - 1), g.Node(0, g.z, n - 1), r);
    } else {
      PlaneSum(g, l, g.z, i, j);
      PlanesOrdered(g, l);
      OtherRows(Planes(g, l), 0, g.Node(0, 0, l), r);
    }
  }

  // Every row sums to zero, except those of the heat sink, which lose 1 / amb to the
  // surroundings.
  lemma RowSums(g: Grid, i: nat, j: nat, l: nat)
    requires g.Positive() && g.Has(i, j, l)
    ensures RowSum(Matrix(g), g.Node(i, j, l)) == if l == 0 then 1.0 / g.amb else 0.0
  {
    HasIs(g, i, j, l);
    PlanesSum(g, g.layers, i, j, l);
  }

  // ------------------------------------------------------------ how many entries

  // Neighbours along an axis of n cells: of one cell, of the first k, of all.
  function Near(n: nat, k: nat): nat { (if k > 0 then 1 else 0) + (if k + 1 < n then 1 else 0) }

  function NearSum(n: nat, k: nat): nat { if k == 0 then 0 else NearSum(n, k - 1) + Near(n, k - 1) }

  function Pairs(n: nat): nat { if n == 0 then 0 else 2 * n - 2 }

  lemma {:induction false} NearSumIs(n: nat, k: nat)
    requires k <= n
    ensures NearSum(n, k) == if k == 0 then 0 else if k < n then 2 * k - 1 else Pairs(n)
  {
    if k > 0 {
      NearSumIs(n, k - 1);
    }
  }

  lemma RowLength(g: Grid, i: nat, j: nat, l: nat)
    requires g.Positive() && g.Has(i, j, l)
    ensures |Row(g, i, j, l)| == 1 + Near(g.x, i) + Near(g.z, j) + Near(g.layers, l)
  {
    RowIs(g, i, j, l);
    hide g.Node;
  }

  lemma Once(n: nat, c: nat)
    requires n > 0
    ensures n * c == (n - 1) * c + c && 0 * c == 0
  {
  }

  lemma NearSumMore(n: nat, k: nat)
    ensures NearSum(n, 0) == 0 && (k > 0 ==> NearSum(n, k) == NearSum(n, k - 1) + Near(n, k - 1))
  {
  }

  lemma NearSumAll(n: nat)
    ensures NearSum(n, n) == Pairs(n)
  {
    NearSumIs(n, n);
  }

  lemma Nothing(c: nat)
    ensures 0 * c == 0 && c * 0 == 0
  {
  }

  lemma {:induction false} LineLength(g: Grid, l: nat, j: nat, n: nat)
    requires g.Positive() && j < g.z && l < g.layers && n <= g.x
    ensures |Line(g, l, j, n)| == NearSum(g.x, n) + n * (1 + Near(g.z, j) + Near(g.layers, l))
  {
    hide *;
    LineMore(g, l, j, n);
    NearSumMore(g.x, n);
    if n == 0 {
      Nothing(1 + Near(g.z, j) + Near(g.layers, l));
    } else {
      LineLength(g, l, j, n - 1);
      HasIs(g, n - 1, j, l);
      RowLength(g, n - 1, j, l);
      Once(n, 1 + Near(g.z, j) + Near(g.layers, l));
    }
  }

  lemma {:induction false} PlaneLength(g: Grid, l: nat, n: nat)
    requires g.Positive() && l < g.layers && n <= g.z
    ensures |Plane(g, l, n)| == n * (Pairs(g.x) + g.x * (1 + Near(g.layers, l))) + g.x * NearSum(g.z, n)
  {
    hide *;
    PlaneMore(g, l, n);
    NearSumMore(g.z, n);
    var each := Pairs(g.x) + g.x * (1 + Near(g.layers, l));
    if n == 0 {
      Nothing(each);
      Nothing(g.x);
    } else {
      PlaneLength(g, l, n - 1);
      LineLength(g, l, n - 1, g.x);
      NearSumAll(g.x);
      Once(n, each);
      Spread(g.x, 1 + Near(g.layers, l), Near(g.z, n - 1));
      Spread(g.x, NearSum(g.z, n - 1), Near(g.z, n - 1));
      assert 1 + Near(g.z, n - 1) + Near(g.layers, l) == (1 + Near(g.layers, l)) + Near(g.z, n - 1);
    }
  }

  // The neighbours within one plane.
  function Flat(x: nat, z: nat): nat { z * Pairs(x) + x * Pairs(z) }

  lemma Regrouped(x: nat, z: nat, c: nat)
    ensures z * (Pairs(x) + x * (1 + c)) + x * Pairs(z) == Flat(x, z) + x * z + (x * z) * c
  {
    var p := Pairs(x);
    Spread(z, p, x * (1 + c));
    Spread(x, 1, c);
    Spread(z, x, x * c);
    Commute(z, x, c);
  }

  lemma Commute(z: nat, x: nat, c: nat)
    ensures z * (x * c) == (x * z) * c && z * x == x * z
  {
  }

  lemma {:induction false} PlanesLength(g: Grid, n: nat)
    requires g.Positive() && n <= g.layers
    ensures |Planes(g, n)| == n * (Flat(g.x, g.z) + g.x * g.z) + (g.x * g.z) * NearSum(g.layers, n)
  {
    hide *;
    PlanesMore(g, n);
    NearSumMore(g.layers, n);
    var each := Flat(g.x, g.z) + g.x * g.z;
    if n == 0 {
      Nothing(each);
      Nothing(g.x * g.z);
    } else {
      PlanesLength(g, n - 1);
      PlaneLength(g, n - 1, g.z);
      NearSumAll(g.z);
      Regrouped(g.x, g.z, Near(g.layers, n - 1));
      Once(n, each);
      Spread(g.x * g.z, NearSum(g.layers, n - 1), Near(g.layers, n - 1));
    }
  }

  // The number of entries: one for each cell, and two for each pair of neighbours.
  function Entries(g: Grid): nat {
    g.layers * (Flat(g.x, g.z) + g.x * g.z) + (g.x * g.z) * Pairs(g.layers)
  }

  lemma MatrixLength(g: Grid)
    requires g.Positive()
    ensures |Matrix(g)| == Entries(g)
  {
    PlanesLength(g, g.layers);
    NearSumAll(g.layers);
    hide Planes, Flat;
  }

  // The source counts along other lines: the plane's cells by x and then by z.
  method CountEntries(g: Grid) returns (count: nat)
    ensures count == Entries(g)
  {
    hide *;
    count := 0;
    var flat := Flat(g.x, g.z);
    CountStart(g.layers, flat, g.x * g.z);
    for l := 0 to g.layers
      invariant count == l * flat + (g.x * g.z) * NearSum(g.layers, l)
    {
      ghost var before, near := count, Near(g.layers, l);
      CountStart(g.x, Pairs(g.z) + g.z * near, g.z);
      for i := 0 to g.x
        invariant count == before + i * (Pairs(g.z) + g.z * near) + g.z * NearSum(g.x, i)
      {
        ghost var line := count;
        CountStart(g.z, Near(g.x, i) + near, 1);
        for j := 0 to g.z
          invariant count == line + j * (Near(g.x, i) + near) + NearSum(g.z, j)
        {
          CountCell(g, i, j, l);
          NearSumMore(g.z, j + 1);
          Once(j + 1, Near(g.x, i) + near);
          if i > 0 {
            count := count + 1;
          }
          if i + 1 < g.x {
            count := count + 1;
          }
          if j > 0 {
            count := count + 1;
          }
          if j + 1 < g.z {
            count := count + 1;
          }
          if l + 1 < g.layers {
            count := count + 1;
          }
          if l > 0 {
            count := count + 1;
          }
        }
        NearSumAll(g.z);
        Spread(g.z, Near(g.x, i), near);
        NearSumMore(g.x, i + 1);
        Once(i + 1, Pairs(g.z) + g.z * near);
        Spread(g.z, NearSum(g.x, i), Near(g.x, i));
      }
      NearSumAll(g.x);
      CountedPlane(g.x, g.z, near);
      NearSumMore(g.layers, l + 1);
      Once(l + 1, flat);
      Spread(g.x * g.z, NearSum(g.layers, l), near);
    }
    NearSumAll(g.layers);
    CountedAll(g);
    count := count + g.x * g.z * g.layers;
  }

  lemma CountStart(n: nat, c: nat, d: nat)
    ensures 0 * c == 0 && d * NearSum(n, 0) == 0 && NearSum(n, 0) == 0
  {
  }

  lemma CountCell(g: Grid, i: nat, j: nat, l: nat)
    ensures Near(g.x, i) == (if i > 0 then 1 else 0) + (if i + 1 < g.x then 1 else 0)
    ensures Near(g.z, j) == (if j > 0 then 1 else 0) + (if j + 1 < g.z then 1 else 0)
    ensures Near(g.layers, l) == (if l > 0 then 1 else 0) + (if l + 1 < g.layers then 1 else 0)
  {
  }

  lemma CountedPlane(x: nat, z: nat, c: nat)
    ensures x * (Pairs(z) + z * c) + z * Pairs(x) == Flat(x, z) + (x * z) * c
  {
    Spread(x, Pairs(z), z * c);
    Commute(x, z, c);
  }

  lemma CountedAll(g: Grid)
    ensures Entries(g) == g.layers * Flat(g.x, g.z) + (g.x * g.z) * Pairs(g.layers) + g.x * g.z * g.layers
  {
    Spread(g.layers, Flat(g.x, g.z), g.x * g.z);
  }
}
