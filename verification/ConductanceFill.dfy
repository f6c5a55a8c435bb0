// The loops that fill the conductance matrix in place
// (dramsim3/src/thermal_solver.c), proved against ConductanceMatrix.
module ConductanceFill {
  import opened ConductanceMatrix

  // Append one entry.
  method Put(m: array<Entry>, idx: nat, e: Entry) returns (next: nat)
    requires idx < m.Length
    modifies m
    ensures next == idx + 1 && m[..next] == old(m[..idx]) + [e]
  {
    m[idx] := e;
    next := idx + 1;
  }

  // The off-diagonal entries of one row, before and after the diagonal.
  method PutBefore(g: Grid, m: array<Entry>, start: nat, i: nat, j: nat, l: nat) returns (idx: nat)
    requires g.Positive() && start + |Before(g, i, j, l)| <= m.Length
    modifies m
    ensures idx == start + |Before(g, i, j, l)| && m[..idx] == old(m[..start]) + Before(g, i, j, l)
  {
    hide g.Node;
    ghost var was := m[..start];
    Append(was, Under(g, i, j, l), Behind(g, i, j, l));
    Append(was, Under(g, i, j, l) + Behind(g, i, j, l), Left(g, i, j, l));
    idx := start;
    if l > 0 {
      idx := Put(m, idx, Entry(g.Node(i, j, l), g.Node(i, j, l - 1), -1.0 / (g.vert(i, j, l) / 2.0 + g.vert(i, j, l - 1) / 2.0)));
    }
    assert m[..idx] == was + Under(g, i, j, l);
    if j > 0 {
      idx := Put(m, idx, Entry(g.Node(i, j, l), g.Node(i, j - 1, l), g.AlongZ(l)));
    }
    assert m[..idx] == (was + Under(g, i, j, l)) + Behind(g, i, j, l);
    if i > 0 {
      idx := Put(m, idx, Entry(g.Node(i, j, l), g.Node(i - 1, j, l), g.AlongX(l)));
    }
    assert m[..idx] == (was + (Under(g, i, j, l) + Behind(g, i, j, l))) + Left(g, i, j, l);
  }

  method PutAfter(g: Grid, m: array<Entry>, start: nat, i: nat, j: nat, l: nat) returns (idx: nat)
    requires g.Positive() && start + |After(g, i, j, l)| <= m.Length
    modifies m
    ensures idx == start + |After(g, i, j, l)| && m[..idx] == old(m[..start]) + After(g, i, j, l)
  {
    hide g.Node;
    ghost var was := m[..start];
    Append(was, Right(g, i, j, l), Ahead(g, i, j, l));
    Append(was, Right(g, i, j, l) + Ahead(g, i, j, l), Over(g, i, j, l));
    idx := start;
    if i + 1 < g.x {
      idx := Put(m, idx, Entry(g.Node(i, j, l), g.Node(i + 1, j, l), g.AlongX(l)));
    }
    assert m[..idx] == was + Right(g, i, j, l);
    if j + 1 < g.z {
      idx := Put(m, idx, Entry(g.Node(i, j, l), g.Node(i, j + 1, l), g.AlongZ(l)));
    }
    assert m[..idx] == (was + Right(g, i, j, l)) + Ahead(g, i, j, l);
    if l + 1 < g.layers {
      idx := Put(m, idx, Entry(g.Node(i, j, l), g.Node(i, j, l + 1), -1.0 / (g.vert(i, j, l) / 2.0 + g.vert(i, j, l + 1) / 2.0)));
    }
    assert m[..idx] == (was + (Right(g, i, j, l) + Ahead(g, i, j, l))) + Over(g, i, j, l);
  }

  // What a stretch of entries adds up to, negated.
  method Minus(m: array<Entry>, first: nat, idx: nat) returns (val: real)
    requires first <= idx <= m.Length
    ensures val == 0.0 - Sum(m[first..idx])
  {
    val := 0.0;
    for k := first to idx
      invariant val == 0.0 - Sum(m[first..k])
    {
      assert m[first..k + 1][..k - first] == m[first..k];
      val := val - m[k].val;
    }
  }

  // The diagonal entry of the row written from first on.
  method PutDiagonal(g: Grid, m: array<Entry>, first: nat, idx: nat, i: nat, j: nat, l: nat) returns (next: nat)
    requires g.Positive() && first <= idx < m.Length
    requires m[first..idx] == Before(g, i, j, l) + After(g, i, j, l)
    modifies m
    ensures next == idx + 1 && m[..next] == old(m[..idx]) + [Diagonal(g, i, j, l)]
  {
    hide Before, After, Sum;
    var n := g.Node(i, j, l);
    var val := Minus(m, first, idx);
    if n < g.x * g.z {
      val := val + 1.0 / g.amb;
    }
    next := Put(m, idx, Entry(n, n, val));
  }

  // Sort the last entry of a row into its place, by swapping neighbours.
  method SiftDown(m: array<Entry>, first: nat, last: nat)
    requires first <= last < m.Length
    modifies m
    ensures m[..first] == old(m[..first])
    ensures m[first..last + 1] == Sift(old(m[first..last]), old(m[last]))
  {
    hide Sift, Placed;
    ghost var q, e, pre, post := m[first..last], m[last], m[..first], m[last + 1..];
    var k := last;
    PlacedLast(m[..], first, last);
    Append(Sift(q, e), [], []);
    assert q[..last - first] == q;
    while first < k && m[k - 1].col > m[k].col
      invariant first <= k <= last && m[..] == Placed(pre, q, e, k - first, post)
      invariant Sift(q, e) == Sift(q[..k - first], e) + q[k - first..]
    {
      PlacedAt(pre, q, e, k - first, post);
      SiftPast(q, e, k - first);
      m[k - 1], m[k] := m[k], m[k - 1];
      k := k - 1;
    }
    PlacedAt(pre, q, e, k - first, post);
    SiftStops(q[..k - first], e);
    assert m[..first] == m[..][..first] && m[first..last + 1] == m[..][first..last + 1];
  }

  // The row q with e put in before position k, between what surrounds the row.
  function Placed(pre: seq<Entry>, q: seq<Entry>, e: Entry, k: nat, post: seq<Entry>): seq<Entry>
    requires k <= |q|
  {
    pre + (q[..k] + [e] + q[k..]) + post
  }

  lemma PlacedLast(s: seq<Entry>, first: nat, last: nat)
    requires first <= last < |s|
    ensures s == Placed(s[..first], s[first..last], s[last], last - first, s[last + 1..])
  {
  }

  lemma PlacedAt(pre: seq<Entry>, q: seq<Entry>, e: Entry, k: nat, post: seq<Entry>)
    requires k <= |q|
    ensures var s := Placed(pre, q, e, k, post);
            && |s| == |pre| + |q| + 1 + |post| && s[..|pre|] == pre
            && s[|pre|..|pre| + |q| + 1] == q[..k] + [e] + q[k..]
            && s[|pre| + k] == e
            && (k > 0 ==>
                  && s[|pre| + k - 1] == q[k - 1]
                  && Placed(pre, q, e, k - 1, post) == s[|pre| + k - 1 := e][|pre| + k := q[k - 1]])
  {
  }

  lemma SiftPast(q: seq<Entry>, e: Entry, k: nat)
    requires 0 < k <= |q| && q[k - 1].col > e.col
    ensures Sift(q[..k], e) + q[k..] == Sift(q[..k - 1], e) + q[k - 1..]
  {
    assert q[..k][..k - 1] == q[..k - 1];
    assert q[k - 1..] == [q[k - 1]] + q[k..];
    assert Sift(q[..k], e) == Sift(q[..k - 1], e) + [q[k - 1]];
  }

  lemma SiftStops(q: seq<Entry>, e: Entry)
    requires q == [] || q[|q| - 1].col <= e.col
    ensures Sift(q, e) == q + [e]
  {
  }

  // One row: neighbours, diagonal, and the diagonal moved between them.
  method PutRow(g: Grid, m: array<Entry>, first: nat, i: nat, j: nat, l: nat) returns (next: nat)
    requires g.Positive() && g.Has(i, j, l) && first + |Row(g, i, j, l)| <= m.Length
    modifies m
    ensures next == first + |Row(g, i, j, l)| && m[..next] == old(m[..first]) + Row(g, i, j, l)
  {
    RowParts(g, i, j, l);
    hide *;
    ghost var was, a, b := m[..first], Before(g, i, j, l), After(g, i, j, l);
    var mid := PutBefore(g, m, first, i, j, l);
    var idx := PutAfter(g, m, mid, i, j, l);
    Append(was, a, b);
    ghost var now := m[..idx];
    SliceAfter(now, was, a + b);
    assert m[..first] == now[..first];
    assert m[first..idx] == now[first..];
    next := SortDiagonal(g, m, first, idx, i, j, l);
  }

  // The diagonal is written last and then moved between its neighbours.
  method SortDiagonal(g: Grid, m: array<Entry>, first: nat, idx: nat, i: nat, j: nat, l: nat) returns (next: nat)
    requires g.Positive() && first <= idx < m.Length
    requires m[first..idx] == Before(g, i, j, l) + After(g, i, j, l)
    modifies m
    ensures next == idx + 1
    ensures m[..next] == old(m[..first]) + Sift(Before(g, i, j, l) + After(g, i, j, l), Diagonal(g, i, j, l))
  {
    hide *;
    ghost var row := m[..idx];
    next := PutDiagonal(g, m, first, idx, i, j, l);
    SliceAfter(m[..next], row, [Diagonal(g, i, j, l)]);
    assert m[..idx] == m[..next][..idx] == row && m[idx] == m[..next][idx];
    assert m[..first] == m[..idx][..first] && m[first..idx] == m[..idx][first..];
    assert row[..first] == old(m[..first]) && row[first..] == old(m[first..idx]);
    SiftDown(m, first, idx);
    assert m[..next] == m[..first] + m[first..next];
  }

  lemma SliceAfter(s: seq<Entry>, a: seq<Entry>, b: seq<Entry>)
    requires s == a + b
    ensures s[..|a|] == a && s[|a|..] == b
  {
  }

  lemma RowParts(g: Grid, i: nat, j: nat, l: nat)
    requires g.Positive() && g.Has(i, j, l)
    ensures Row(g, i, j, l) == Sift(Before(g, i, j, l) + After(g, i, j, l), Diagonal(g, i, j, l))
    ensures |Row(g, i, j, l)| == |Before(g, i, j, l)| + |After(g, i, j, l)| + 1
  {
    RowIs(g, i, j, l);
    hide Before, After, Diagonal, Sift;
  }

  // -------------------------------------------------------------- room for all

  lemma {:induction false} LineGrows(g: Grid, l: nat, j: nat, i: nat, n: nat)
    requires g.Positive() && i <= n
    ensures |Line(g, l, j, i)| <= |Line(g, l, j, n)|
  {
    hide *;
    if i < n {
      LineMore(g, l, j, n);
      LineGrows(g, l, j, i, n - 1);
    }
  }

  lemma {:induction false} PlaneGrows(g: Grid, l: nat, j: nat, n: nat)
    requires g.Positive() && j <= n
    ensures |Plane(g, l, j)| <= |Plane(g, l, n)|
  {
    hide *;
    if j < n {
      PlaneMore(g, l, n);
      PlaneGrows(g, l, j, n - 1);
    }
  }

  lemma {:induction false} PlanesGrow(g: Grid, l: nat, n: nat)
    requires g.Positive() && l <= n
    ensures |Planes(g, l)| <= |Planes(g, n)|
  {
    hide *;
    if l < n {
      PlanesMore(g, n);
      PlanesGrow(g, l, n - 1);
    }
  }

  // The counted number of entries has room for the next row.
  lemma RowFits(g: Grid, i: nat, j: nat, l: nat)
    requires g.Positive() && g.Has(i, j, l)
    ensures |Planes(g, l)| + |Plane(g, l, j)| + |Line(g, l, j, i)| + |Row(g, i, j, l)| <= Entries(g)
  {
    hide *;
    HasIs(g, i, j, l);
    LineMore(g, l, j, i + 1);
    LineGrows(g, l, j, i + 1, g.x);
    PlaneMore(g, l, j + 1);
    PlaneGrows(g, l, j + 1, g.z);
    PlanesMore(g, l + 1);
    PlanesGrow(g, l + 1, g.layers);
    MatrixIs(g);
    MatrixLength(g);
  }

  lemma MatrixIs(g: Grid)
    requires g.Positive()
    ensures Matrix(g) == Planes(g, g.layers)
  {
  }

  lemma Append(a: seq<Entry>, b: seq<Entry>, c: seq<Entry>)
    ensures (a + b) + c == a + (b + c) && a + [] == a
  {
  }

  // The loops fill exactly the counted entries with exactly the matrix.
  method BuildMatrix(g: Grid) returns (m: array<Entry>)
    requires g.Positive()
    ensures fresh(m) && m.Length == Entries(g) && m[..] == Matrix(g)
  {
    hide *;
    var count := CountEntries(g);
    m := new Entry[count](_ => Entry(0, 0, 0.0));
    var idx := 0;
    PlanesMore(g, 0);
    for l := 0 to g.layers
      invariant fresh(m) && m.Length == Entries(g) && idx == |Planes(g, l)| <= m.Length && m[..idx] == Planes(g, l)
    {
      PlaneMore(g, l, 0);
      Append(Planes(g, l), [], []);
      for j := 0 to g.z
        invariant idx == |Planes(g, l)| + |Plane(g, l, j)| <= m.Length && m[..idx] == Planes(g, l) + Plane(g, l, j)
      {
        LineMore(g, l, j, 0);
        ghost var before := Planes(g, l) + Plane(g, l, j);
        Append(before, [], []);
        for i := 0 to g.x
          invariant idx == |before| + |Line(g, l, j, i)| <= m.Length && m[..idx] == before + Line(g, l, j, i)
        {
          HasIs(g, i, j, l);
          RowFits(g, i, j, l);
          idx := PutRow(g, m, idx, i, j, l);
          LineMore(g, l, j, i + 1);
          Append(before, Line(g, l, j, i), Row(g, i, j, l));
        }
        PlaneMore(g, l, j + 1);
        Append(Planes(g, l), Plane(g, l, j), Line(g, l, j, g.x));
      }
      PlanesMore(g, l + 1);
    }
    MatrixIs(g);
    MatrixLength(g);
    assert m[..] == m[..idx];
  }
}
