// The sliding-window edge partitioner and the list of vertices to fetch for one
// part (hygcn/dataflow/aggr.cpp, Partition and SparsityElimination).
module EdgePartition {
  import opened Basics

  // One row of sources for each aggregated vertex.
  type Rows = seq<seq<int>>

  ghost predicate SourcesBelow(rows: Rows, top: int) {
    forall i, j :: 0 <= i < |rows| && 0 <= j < |rows[i]| ==> rows[i][j] < top
  }

  predicate AllEmpty(rows: Rows) { forall i :: 0 <= i < |rows| ==> rows[i] == [] }

  // The smallest source at the front of a row, or `top`.
  function FirstSource(rows: Rows, top: int): (m: int)
    ensures m <= top
    ensures forall i :: 0 <= i < |rows| && rows[i] != [] ==> m <= rows[i][0]
    ensures m == top || exists i :: 0 <= i < |rows| && rows[i] != [] && rows[i][0] == m
  {
    if rows == [] then top
    else
      var m := FirstSource(rows[..|rows| - 1], top);
      if rows[|rows| - 1] == [] then m else Min(m, rows[|rows| - 1][0])
  }

  // How many sources of a row fall to the window that ends before `end`.
  function StopPoint(row: seq<int>, end: int, interval: nat): (j: nat)
    ensures j <= |row| && j <= interval
    ensures forall k :: 0 <= k < j ==> row[k] < end
    ensures j < |row| && j < interval ==> row[j] >= end
  {
    if row == [] || interval == 0 || row[0] >= end then 0 else 1 + StopPoint(row[1..], end, interval - 1)
  }

  function Cut(rows: Rows, end: int, interval: nat): (part: Rows)
    ensures |part| == |rows|
  {
    seq(|rows|, i requires 0 <= i < |rows| => rows[i][..StopPoint(rows[i], end, interval)])
  }

  function Leave(rows: Rows, end: int, interval: nat): (rest: Rows)
    ensures |rest| == |rows|
  {
    seq(|rows|, i requires 0 <= i < |rows| => rows[i][StopPoint(rows[i], end, interval)..])
  }

  function Size(rows: Rows): nat {
    if rows == [] then 0 else Size(rows[..|rows| - 1]) + |rows[|rows| - 1]|
  }

  lemma {:induction false} SizeSplits(rows: Rows, part: Rows, rest: Rows)
    requires |part| == |rows| == |rest|
    requires forall i :: 0 <= i < |rows| ==> rows[i] == part[i] + rest[i]
    ensures Size(rows) == Size(part) + Size(rest)
  {
    if rows != [] {
      var n := |rows| - 1;
      SizeSplits(rows[..n], part[..n], rest[..n]);
    }
  }

  lemma {:induction false} SizePositive(rows: Rows, i: nat)
    requires i < |rows| && rows[i] != []
    ensures Size(rows) > 0
  {
    if i < |rows| - 1 {
      SizePositive(rows[..|rows| - 1], i);
    }
  }

  lemma {:induction false} SizeZero(rows: Rows)
    ensures Size(rows) == 0 <==> AllEmpty(rows)
  {
    if rows != [] {
      var n := |rows| - 1;
      SizeZero(rows[..n]);
      assert AllEmpty(rows) <==> AllEmpty(rows[..n]) && rows[n] == [];
    }
  }

  // The part that the first window takes, and what it leaves.
  function Now(rows: Rows, top: int, interval: nat): (part: Rows)
    ensures |part| == |rows|
  {
    Cut(rows, FirstSource(rows, top) + interval, interval)
  }

  function Later(rows: Rows, top: int, interval: nat): (rest: Rows)
    ensures |rest| == |rows|
    ensures SourcesBelow(rows, top) ==> SourcesBelow(rest, top)
  {
    Leave(rows, FirstSource(rows, top) + interval, interval)
  }

  lemma CutAndLeave(rows: Rows, end: int, interval: nat, i: nat)
    requires i < |rows|
    ensures rows[i] == Cut(rows, end, interval)[i] + Leave(rows, end, interval)[i]
  {
  }

  lemma NowAndLater(rows: Rows, top: int, interval: nat)
    ensures forall i :: 0 <= i < |rows| ==> rows[i] == Now(rows, top, interval)[i] + Later(rows, top, interval)[i]
    ensures Size(rows) == Size(Now(rows, top, interval)) + Size(Later(rows, top, interval))
  {
    forall i | 0 <= i < |rows|
      ensures rows[i] == Now(rows, top, interval)[i] + Later(rows, top, interval)[i]
    {
      CutAndLeave(rows, FirstSource(rows, top) + interval, interval, i);
    }
    SizeSplits(rows, Now(rows, top, interval), Later(rows, top, interval));
  }

  lemma FrontTaken(rows: Rows, top: int, interval: nat, i: nat)
    requires 0 < interval && i < |rows| && rows[i] != [] && rows[i][0] == FirstSource(rows, top)
    ensures Now(rows, top, interval)[i] != []
  {
  }

  // A window takes at least one source as long as there is one.
  lemma WindowTakes(rows: Rows, top: int, interval: nat)
    requires SourcesBelow(rows, top) && 0 < interval && !AllEmpty(rows)
    ensures !AllEmpty(Now(rows, top, interval))
    ensures Size(Later(rows, top, interval)) < Size(rows)
  {
    var k :| 0 <= k < |rows| && rows[k] != [];
    assert FirstSource(rows, top) <= rows[k][0] < top;
    var i :| 0 <= i < |rows| && rows[i] != [] && rows[i][0] == FirstSource(rows, top);
    FrontTaken(rows, top, interval, i);
    SizePositive(Now(rows, top, interval), i);
    NowAndLater(rows, top, interval);
  }

  lemma LaterSmaller(rows: Rows, top: int, interval: nat)
    requires SourcesBelow(rows, top) && 0 < interval && !AllEmpty(Later(rows, top, interval))
    ensures Size(Later(rows, top, interval)) < Size(rows)
  {
    if AllEmpty(rows) {
      NowAndLater(rows, top, interval);
      SizeZero(rows);
      SizeZero(Later(rows, top, interval));
    } else {
      WindowTakes(rows, top, interval);
    }
  }

  // All parts; a chunk without edges still yields one (empty) part.
  function Parts(rows: Rows, top: int, interval: nat): (parts: seq<Rows>)
    requires SourcesBelow(rows, top) && 0 < interval
    ensures parts != [] && forall p :: 0 <= p < |parts| ==> |parts[p]| == |rows|
    decreases Size(rows)
  {
    if AllEmpty(Later(rows, top, interval)) then [Now(rows, top, interval)]
    else
      LaterSmaller(rows, top, interval);
      [Now(rows, top, interval)] + Parts(Later(rows, top, interval), top, interval)
  }

  lemma PartsTail(rows: Rows, top: int, interval: nat)
    requires SourcesBelow(rows, top) && 0 < interval
    ensures var parts := Parts(rows, top, interval);
            && parts[0] == Now(rows, top, interval)
            && parts[1..] == if AllEmpty(Later(rows, top, interval)) then [] else Parts(Later(rows, top, interval), top, interval)
  {
  }

  // ------------------------------------------------------ nothing lost, in order

  // What the parts hold of row i, one after the other.
  function RowOf(parts: seq<Rows>, i: nat): seq<int>
    requires forall p :: 0 <= p < |parts| ==> i < |parts[p]|
  {
    if parts == [] then [] else parts[0][i] + RowOf(parts[1..], i)
  }

  // The parts of a row, concatenated, are the row.
  lemma {:induction false} PartsRestoreRow(rows: Rows, top: int, interval: nat, i: nat)
    requires SourcesBelow(rows, top) && 0 < interval && i < |rows|
    ensures RowOf(Parts(rows, top, interval), i) == rows[i]
    decreases Size(rows)
  {
    NowAndLater(rows, top, interval);
    PartsTail(rows, top, interval);
    if !AllEmpty(Later(rows, top, interval)) {
      LaterSmaller(rows, top, interval);
      PartsRestoreRow(Later(rows, top, interval), top, interval, i);
    }
  }

  function TotalSize(parts: seq<Rows>): nat {
    if parts == [] then 0 else Size(parts[0]) + TotalSize(parts[1..])
  }

  lemma {:induction false} PartsKeepSize(rows: Rows, top: int, interval: nat)
    requires SourcesBelow(rows, top) && 0 < interval
    ensures TotalSize(Parts(rows, top, interval)) == Size(rows)
    decreases Size(rows)
  {
    NowAndLater(rows, top, interval);
    PartsTail(rows, top, interval);
    SizeZero(Later(rows, top, interval));
    if !AllEmpty(Later(rows, top, interval)) {
      LaterSmaller(rows, top, interval);
      PartsKeepSize(Later(rows, top, interval), top, interval);
    }
  }

  // A chunk with an edge has no part without one.
  lemma {:induction false} PartsNonEmpty(rows: Rows, top: int, interval: nat, p: nat)
    requires SourcesBelow(rows, top) && 0 < interval && p < |Parts(rows, top, interval)|
    requires !AllEmpty(rows)
    ensures !AllEmpty(Parts(rows, top, interval)[p])
    decreases p
  {
    if p > 0 {
      PartsTail(rows, top, interval);
      assert Parts(rows, top, interval)[p] == Parts(rows, top, interval)[1..][p - 1];
      PartsNonEmpty(Later(rows, top, interval), top, interval, p - 1);
    } else {
      WindowTakes(rows, top, interval);
    }
  }

  // ----------------------------------------------------------- disjoint windows

  ghost predicate Ascending(row: seq<int>) {
    forall j, k :: 0 <= j < k < |row| ==> row[j] < row[k]
  }

  ghost predicate RowsAscend(rows: Rows) {
    forall i :: 0 <= i < |rows| ==> Ascending(rows[i])
  }

  ghost predicate AllFrom(rows: Rows, start: int) {
    forall i, j :: 0 <= i < |rows| && 0 <= j < |rows[i]| ==> start <= rows[i][j]
  }

  lemma {:induction false} AscendsBy(row: seq<int>, j: nat)
    requires Ascending(row) && j < |row|
    ensures row[j] >= row[0] + j
  {
    if j > 0 {
      AscendsBy(row, j - 1);
    }
  }

  // In an ascending row the count limit never cuts a window short.
  lemma StopAtWindow(row: seq<int>, first: int, interval: nat)
    requires Ascending(row) && (row != [] ==> first <= row[0])
    ensures var j := StopPoint(row, first + interval, interval); j < |row| ==> row[j] >= first + interval
  {
    var j := StopPoint(row, first + interval, interval);
    if j < |row| {
      AscendsBy(row, j);
    }
  }

  // What is left of ascending rows lies behind the window.
  lemma LaterBehind(rows: Rows, top: int, interval: nat)
    requires RowsAscend(rows)
    ensures RowsAscend(Later(rows, top, interval))
    ensures AllFrom(Later(rows, top, interval), FirstSource(rows, top) + interval)
  {
    var first, rest := FirstSource(rows, top), Later(rows, top, interval);
    forall i, j | 0 <= i < |rest| && 0 <= j < |rest[i]|
      ensures first + interval <= rest[i][j]
    {
      StopAtWindow(rows[i], first, interval);
    }
  }

  lemma FirstFrom(rows: Rows, top: int, start: int)
    requires AllFrom(rows, start) && SourcesBelow(rows, top) && !AllEmpty(rows)
    ensures FirstSource(rows, top) >= start
  {
    var k :| 0 <= k < |rows| && rows[k] != [];
    assert FirstSource(rows, top) <= rows[k][0] < top;
  }

  // Where the window of each part starts.
  function WindowStarts(rows: Rows, top: int, interval: nat): (starts: seq<int>)
    requires SourcesBelow(rows, top) && 0 < interval
    ensures |starts| == |Parts(rows, top, interval)|
    decreases Size(rows)
  {
    if AllEmpty(Later(rows, top, interval)) then [FirstSource(rows, top)]
    else
      LaterSmaller(rows, top, interval);
      [FirstSource(rows, top)] + WindowStarts(Later(rows, top, interval), top, interval)
  }

  ghost predicate InWindow(part: Rows, start: int, interval: nat) {
    forall i, j :: 0 <= i < |part| && 0 <= j < |part[i]| ==> start <= part[i][j] < start + interval
  }

  lemma NowInWindow(rows: Rows, top: int, interval: nat)
    requires RowsAscend(rows)
    ensures InWindow(Now(rows, top, interval), FirstSource(rows, top), interval)
  {
    var first, part := FirstSource(rows, top), Now(rows, top, interval);
    forall i, j | 0 <= i < |part| && 0 <= j < |part[i]|
      ensures first <= part[i][j] < first + interval
    {
      AscendsBy(rows[i], j);
    }
  }

  ghost predicate Windowed(parts: seq<Rows>, starts: seq<int>, interval: nat, from: int) {
    && |starts| == |parts|
    && (forall p :: 0 <= p < |parts| ==> InWindow(parts[p], starts[p], interval))
    && (forall p, q :: 0 <= p < q < |parts| ==> starts[p] + interval <= starts[q])
    && (forall p :: 0 <= p < |parts| ==> from <= starts[p])
  }

  lemma OneMoreWindow(part: Rows, start: int, parts: seq<Rows>, starts: seq<int>, interval: nat)
    requires Windowed(parts, starts, interval, start + interval) && InWindow(part, start, interval)
    ensures Windowed([part] + parts, [start] + starts, interval, start)
  {
  }

  // Every part lies in its window, and the windows follow one another without
  // overlapping.
  lemma {:induction false} WindowsAdvance(rows: Rows, top: int, interval: nat)
    requires SourcesBelow(rows, top) && 0 < interval && RowsAscend(rows)
    ensures Windowed(Parts(rows, top, interval), WindowStarts(rows, top, interval), interval, FirstSource(rows, top))
    decreases Size(rows)
  {
    var first, rest := FirstSource(rows, top), Later(rows, top, interval);
    NowInWindow(rows, top, interval);
    if !AllEmpty(rest) {
      LaterBehind(rows, top, interval);
      LaterSmaller(rows, top, interval);
      FirstFrom(rest, top, first + interval);
      WindowsAdvance(rest, top, interval);
      OneMoreWindow(Now(rows, top, interval), first, Parts(rest, top, interval), WindowStarts(rest, top, interval), interval);
    }
  }

  // ------------------------------------------------------------ what is fetched

  // SparsityElimination: the distinct sources of a part.
  function Sources(rows: Rows): set<int> {
    set i, j | 0 <= i < |rows| && 0 <= j < |rows[i]| :: rows[i][j]
  }

  // No source is fetched for two parts of a chunk.
  lemma FetchedOnce(rows: Rows, top: int, interval: nat, p: nat, q: nat)
    requires SourcesBelow(rows, top) && 0 < interval && RowsAscend(rows) && p < q < |Parts(rows, top, interval)|
    ensures Sources(Parts(rows, top, interval)[p]) !! Sources(Parts(rows, top, interval)[q])
  {
    WindowsAdvance(rows, top, interval);
    Apart(Parts(rows, top, interval), WindowStarts(rows, top, interval), interval, p, q);
  }

  lemma Apart(parts: seq<Rows>, starts: seq<int>, interval: nat, p: nat, q: nat)
    requires |starts| == |parts| && p < q < |parts| && starts[p] + interval <= starts[q]
    requires InWindow(parts[p], starts[p], interval) && InWindow(parts[q], starts[q], interval)
    ensures Sources(parts[p]) !! Sources(parts[q])
  {
  }

  lemma {:induction false} SizeInRange(s: set<int>, lo: int, n: nat)
    requires forall x :: x in s ==> lo <= x < lo + n
    ensures |s| <= n
    decreases n
  {
    if n > 0 {
      var last := lo + n - 1;
      SizeInRange(s - {last}, lo, n - 1);
      assert s - {last} == (if last in s then s - {last} else s);
    } else {
      assert forall x :: x in s ==> false;
      assert s == {};
    }
  }

  lemma SourcesWithin(part: Rows, start: int, interval: nat)
    requires InWindow(part, start, interval)
    ensures |Sources(part)| <= interval
  {
    SizeInRange(Sources(part), start, interval);
  }

  lemma TimesUpTo(n: nat, capacity: nat, v: nat)
    requires 0 < v && n <= capacity / v
    ensures n * v <= capacity
  {
    var d := capacity / v - n;
    assert (n + d) * v == n * v + d * v;
    assert d * v >= 0;
  }

  lemma PartWindow(parts: seq<Rows>, starts: seq<int>, interval: nat, from: int, p: nat)
    requires Windowed(parts, starts, interval, from) && p < |parts|
    ensures |Sources(parts[p])| <= interval
  {
    SourcesWithin(parts[p], starts[p], interval);
  }

  // With the interval of config.cpp, the vectors of all sources of a part fit
  // the input buffer together.
  lemma PartFitsInputBuffer(rows: Rows, top: int, capInbuf: nat, spaceVector: nat, interval: nat, p: nat)
    requires 0 < spaceVector <= capInbuf && interval == capInbuf / spaceVector && 0 < interval
    requires SourcesBelow(rows, top) && RowsAscend(rows) && p < |Parts(rows, top, interval)|
    ensures |Sources(Parts(rows, top, interval)[p])| * spaceVector <= capInbuf
  {
    hide *;
    WindowsAdvance(rows, top, interval);
    PartWindow(Parts(rows, top, interval), WindowStarts(rows, top, interval), interval, FirstSource(rows, top), p);
    TimesUpTo(|Sources(Parts(rows, top, interval)[p])|, capInbuf, spaceVector);
  }

  // ------------------------------------------------------------------ the loops

  lemma PartsStep(done: seq<Rows>, rows: Rows, all: seq<Rows>, top: int, interval: nat)
    requires SourcesBelow(rows, top) && 0 < interval && done + Parts(rows, top, interval) == all
    ensures var rest := Later(rows, top, interval);
            var done' := done + [Now(rows, top, interval)];
            if AllEmpty(rest) then done' == all
            else done' + Parts(rest, top, interval) == all && Size(rest) < Size(rows)
  {
    var parts := Parts(rows, top, interval);
    PartsTail(rows, top, interval);
    assert done + parts == done + [parts[0]] + parts[1..];
    if !AllEmpty(Later(rows, top, interval)) {
      LaterSmaller(rows, top, interval);
    }
  }

  // The rows as deques: each is a suffix of the row it came from.
  method Partition(edges: Rows, numVertex: int, interval: nat) returns (partitions: seq<Rows>)
    requires SourcesBelow(edges, numVertex) && 0 < interval
    ensures partitions == Parts(edges, numVertex, interval)
  {
    ghost var all := Parts(edges, numVertex, interval);
    partitions := [];
    var edgeSet := edges;
    var endFlag := false;
    while !endFlag
      invariant SourcesBelow(edgeSet, numVertex)
      invariant if endFlag then partitions == all else partitions + Parts(edgeSet, numVertex, interval) == all
      decreases !endFlag, Size(edgeSet)
    {
      PartsStep(partitions, edgeSet, all, numVertex, interval);
      var part;
      part, edgeSet := NextPart(edgeSet, numVertex, interval);
      partitions := partitions + [part];
      endFlag := NothingLeft(edgeSet);
    }
  }

  method NextPart(rows: Rows, numVertex: int, interval: nat) returns (part: Rows, edgeSet: Rows)
    ensures part == Now(rows, numVertex, interval) && edgeSet == Later(rows, numVertex, interval)
  {
    var startEdge := SmallestFront(rows, numVertex);
    part, edgeSet := TakeWindow(rows, startEdge + interval, interval);
  }

  method SmallestFront(edgeSet: Rows, numVertex: int) returns (startEdge: int)
    ensures startEdge == FirstSource(edgeSet, numVertex)
  {
    startEdge := numVertex;
    for i := 0 to |edgeSet|
      invariant startEdge == FirstSource(edgeSet[..i], numVertex)
    {
      assert edgeSet[..i + 1][..i] == edgeSet[..i];
      if edgeSet[i] != [] {
        startEdge := Min(startEdge, edgeSet[i][0]);
      }
    }
    assert edgeSet[..|edgeSet|] == edgeSet;
  }

  method FindStop(row: seq<int>, endEdge: int, interval: nat) returns (stop: nat)
    ensures stop == StopPoint(row, endEdge, interval)
  {
    var j := 0;
    while true
      invariant j <= |row| && j <= interval
      invariant StopPoint(row, endEdge, interval) == j + StopPoint(row[j..], endEdge, interval - j)
      decreases |row| - j
    {
      if j == |row| || j == interval {
        return j;
      }
      if row[j] >= endEdge {
        return j;
      }
      assert row[j..][1..] == row[j + 1..];
      j := j + 1;
    }
  }

  // Each row's prefix up to its stop point moves into the part.
  method TakeWindow(rows: Rows, endEdge: int, interval: nat) returns (part: Rows, edgeSet: Rows)
    ensures part == Cut(rows, endEdge, interval) && edgeSet == Leave(rows, endEdge, interval)
  {
    part, edgeSet := [], rows;
    for i := 0 to |rows|
      invariant |part| == i && |edgeSet| == |rows|
      invariant forall k :: 0 <= k < i ==> part[k] == rows[k][..StopPoint(rows[k], endEdge, interval)]
                                           && edgeSet[k] == rows[k][StopPoint(rows[k], endEdge, interval)..]
      invariant forall k :: i <= k < |rows| ==> edgeSet[k] == rows[k]
    {
      var stop := FindStop(edgeSet[i], endEdge, interval);
      part := part + [edgeSet[i][..stop]];
      edgeSet := edgeSet[i := edgeSet[i][stop..]];
    }
  }

  method NothingLeft(edgeSet: Rows) returns (endFlag: bool)
    ensures endFlag <==> AllEmpty(edgeSet)
  {
    endFlag := true;
    for i := 0 to |edgeSet|
      invariant endFlag <==> forall k :: 0 <= k < i ==> edgeSet[k] == []
    {
      if edgeSet[i] != [] {
        endFlag := false;
      }
    }
  }

  method SparsityElimination(edges: Rows) returns (s: set<int>)
    ensures s == Sources(edges)
  {
    s := {};
    for i := 0 to |edges|
      invariant s == set k, j | 0 <= k < i && 0 <= j < |edges[k]| :: edges[k][j]
    {
      for j := 0 to |edges[i]|
        invariant s == (set k, m | 0 <= k < i && 0 <= m < |edges[k]| :: edges[k][m]) + (set m | 0 <= m < j :: edges[i][m])
      {
        s := s + {edges[i][j]};
      }
    }
  }
}
