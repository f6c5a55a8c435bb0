// The jobs that aggregating a graph consists of, in order: chunk by chunk, part
// by part, vertex by vertex, one job for each slice of the features.
module AggrTasks {
  import opened Basics
  import opened EdgePartition
  import opened AggrSpec

  function RowTasks(cfg: Setup, vertex: int, row: seq<int>, f: nat): seq<Task>
    decreases cfg.featureChunks - f
  {
    if row == [] || f >= cfg.featureChunks then []
    else [Task(vertex, f, row)] + RowTasks(cfg, vertex, row, f + 1)
  }

  // From row v of a part on.
  function PartTasks(cfg: Setup, start: int, rows: Rows, v: nat): seq<Task>
    decreases |rows| - v
  {
    if v >= |rows| then [] else RowTasks(cfg, start + v, rows[v], 0) + PartTasks(cfg, start, rows, v + 1)
  }

  // From part p of a chunk on.
  function PartsTasks(cfg: Setup, start: int, parts: seq<Rows>, p: nat): seq<Task>
    decreases |parts| - p
  {
    if p >= |parts| then [] else PartTasks(cfg, start, parts[p], 0) + PartsTasks(cfg, start, parts, p + 1)
  }

  // From chunk c on.
  function ChunksTasks(cfg: Setup, c: nat): seq<Task>
    requires cfg.Valid()
    decreases |cfg.chunks| - c
  {
    if c >= |cfg.chunks| then []
    else PartsTasks(cfg, cfg.chunks[c].start, cfg.PartsOf(c), 0) + ChunksTasks(cfg, c + 1)
  }

  // ---------------------------------------------------------- how many jobs

  lemma {:induction false} RowTasksCount(cfg: Setup, vertex: int, row: seq<int>, f: nat)
    requires f <= cfg.featureChunks
    ensures |RowTasks(cfg, vertex, row, f)| == if row == [] then 0 else cfg.featureChunks - f
    decreases cfg.featureChunks - f
  {
    if f < cfg.featureChunks {
      RowTasksCount(cfg, vertex, row, f + 1);
    }
  }

  lemma {:induction false} PartTasksCount(cfg: Setup, start: int, rows: Rows, v: nat)
    requires v <= |rows|
    ensures NonEmptyRows(rows[..v]) <= NonEmptyRows(rows)
    ensures |PartTasks(cfg, start, rows, v)| == (NonEmptyRows(rows) - NonEmptyRows(rows[..v])) * cfg.featureChunks
    decreases |rows| - v
  {
    if v < |rows| {
      PartTasksCount(cfg, start, rows, v + 1);
      RowTasksCount(cfg, start + v, rows[v], 0);
      assert rows[..v + 1][..v] == rows[..v];
      var here := NonEmptyRows(rows[..v + 1]) - NonEmptyRows(rows[..v]);
      Distribute(here, NonEmptyRows(rows) - NonEmptyRows(rows[..v + 1]), cfg.featureChunks);
    } else {
      assert rows[..v] == rows;
    }
  }

  // The number of events that an input buffer waits for while it drains.
  lemma PartEvents(cfg: Setup, start: int, rows: Rows)
    ensures |PartTasks(cfg, start, rows, 0)| == NonEmptyRows(rows) * cfg.featureChunks
  {
    PartTasksCount(cfg, start, rows, 0);
    assert rows[..0] == [];
  }

  lemma {:induction false} LastEndMeaning(rows: Rows, start: int, end: int)
    requires start + |rows| <= end
    ensures start <= LastEnd(rows, start, end) <= end
    ensures forall v :: LastEnd(rows, start, end) - start <= v < |rows| ==> rows[v] == []
  {
    if rows != [] && rows[|rows| - 1] == [] {
      LastEndMeaning(rows[..|rows| - 1], start, end);
    }
  }

  lemma {:induction false} NoTasksBehind(cfg: Setup, start: int, rows: Rows, v: nat)
    requires v <= |rows| && forall w :: v <= w < |rows| ==> rows[w] == []
    ensures PartTasks(cfg, start, rows, v) == []
    decreases |rows| - v
  {
    if v < |rows| {
      NoTasksBehind(cfg, start, rows, v + 1);
    }
  }

  // ------------------------------------------------------- how many edges

  // The sources read by a list of jobs.
  function Depth(tasks: seq<Task>): nat {
    if tasks == [] then 0 else |tasks[0].row| + Depth(tasks[1..])
  }

  lemma {:induction false} DepthConcat(a: seq<Task>, b: seq<Task>)
    ensures Depth(a + b) == Depth(a) + Depth(b)
  {
    if a == [] {
      assert a + b == b;
    } else {
      DepthConcat(a[1..], b);
      assert (a + b)[1..] == a[1..] + b;
    }
  }

  // The jobs read each of x edges once for each of n slices.
  predicate Reads(tasks: seq<Task>, x: nat, n: nat) { Depth(tasks) == x * n }

  lemma ReadsSum(a: seq<Task>, b: seq<Task>, x: nat, y: nat, n: nat)
    requires Reads(a, x, n) && Reads(b, y, n)
    ensures Reads(a + b, x + y, n)
  {
    DepthConcat(a, b);
    Distribute(x, y, n);
  }

  lemma {:induction false} RowDepth(cfg: Setup, vertex: int, row: seq<int>, f: nat)
    requires f <= cfg.featureChunks
    ensures Depth(RowTasks(cfg, vertex, row, f)) == |row| * (cfg.featureChunks - f)
    decreases cfg.featureChunks - f
  {
    if f < cfg.featureChunks {
      RowDepth(cfg, vertex, row, f + 1);
      var rest := cfg.featureChunks - f - 1;
      assert |row| * (rest + 1) == |row| * rest + |row|;
      if row == [] {
        assert |row| * (rest + 1) == 0;
      } else {
        var tail := RowTasks(cfg, vertex, row, f + 1);
        assert ([Task(vertex, f, row)] + tail)[1..] == tail;
      }
    } else {
      assert |row| * 0 == 0;
    }
  }

  lemma {:induction false} PartDepth(cfg: Setup, start: int, rows: Rows, v: nat)
    requires v <= |rows|
    ensures Size(rows[..v]) <= Size(rows)
    ensures Reads(PartTasks(cfg, start, rows, v), Size(rows) - Size(rows[..v]), cfg.featureChunks)
    decreases |rows| - v
  {
    if v < |rows| {
      PartDepth(cfg, start, rows, v + 1);
      RowDepth(cfg, start + v, rows[v], 0);
      assert rows[..v + 1][..v] == rows[..v];
      ReadsSum(RowTasks(cfg, start + v, rows[v], 0), PartTasks(cfg, start, rows, v + 1),
               |rows[v]|, Size(rows) - Size(rows[..v + 1]), cfg.featureChunks);
    } else {
      assert rows[..v] == rows;
      assert 0 * cfg.featureChunks == 0;
    }
  }

  lemma {:induction false} PartsDepth(cfg: Setup, start: int, parts: seq<Rows>, p: nat)
    requires p <= |parts|
    ensures Reads(PartsTasks(cfg, start, parts, p), TotalSize(parts[p..]), cfg.featureChunks)
    decreases |parts| - p
  {
    if p < |parts| {
      PartsDepth(cfg, start, parts, p + 1);
      PartDepth(cfg, start, parts[p], 0);
      assert parts[p][..0] == [];
      assert parts[p..][1..] == parts[p + 1..];
      ReadsSum(PartTasks(cfg, start, parts[p], 0), PartsTasks(cfg, start, parts, p + 1),
               Size(parts[p]), TotalSize(parts[p + 1..]), cfg.featureChunks);
    } else {
      assert 0 * cfg.featureChunks == 0;
    }
  }

  // The edges of the graph from chunk c on.
  function Edges(cfg: Setup, c: nat): nat
    decreases |cfg.chunks| - c
  {
    if c >= |cfg.chunks| then 0 else Size(cfg.chunks[c].rows) + Edges(cfg, c + 1)
  }

  lemma ChunkDepth(cfg: Setup, c: nat)
    requires cfg.Valid() && c < |cfg.chunks|
    ensures Reads(PartsTasks(cfg, cfg.chunks[c].start, cfg.PartsOf(c), 0), Size(cfg.chunks[c].rows), cfg.featureChunks)
  {
    assert cfg.ChunkOk(c);
    var parts := cfg.PartsOf(c);
    assert parts[0..] == parts;
    PartsKeepSize(cfg.chunks[c].rows, cfg.numVertex, cfg.interval);
    PartsDepth(cfg, cfg.chunks[c].start, parts, 0);
  }

  lemma ChunksUnfold(cfg: Setup, c: nat)
    requires cfg.Valid()
    ensures c < |cfg.chunks| ==>
              && ChunksTasks(cfg, c) == PartsTasks(cfg, cfg.chunks[c].start, cfg.PartsOf(c), 0) + ChunksTasks(cfg, c + 1)
              && Edges(cfg, c) == Size(cfg.chunks[c].rows) + Edges(cfg, c + 1)
    ensures c >= |cfg.chunks| ==> Reads(ChunksTasks(cfg, c), Edges(cfg, c), cfg.featureChunks)
  {
    assert 0 * cfg.featureChunks == 0;
  }

  // The jobs read every edge once for each slice.
  lemma {:induction false} ChunksDepth(cfg: Setup, c: nat)
    requires cfg.Valid()
    ensures Reads(ChunksTasks(cfg, c), Edges(cfg, c), cfg.featureChunks)
    decreases |cfg.chunks| - c
  {
    hide *;
    ChunksUnfold(cfg, c);
    if c < |cfg.chunks| {
      ChunksDepth(cfg, c + 1);
      ChunkDepth(cfg, c);
      ReadsSum(PartsTasks(cfg, cfg.chunks[c].start, cfg.PartsOf(c), 0), ChunksTasks(cfg, c + 1),
               Size(cfg.chunks[c].rows), Edges(cfg, c + 1), cfg.featureChunks);
    }
  }

  // ------------------------------------------- every row once for each slice

  // The sources that a list of jobs aggregates into one slice of one vertex, in order.
  function Gathered(tasks: seq<Task>, vertex: int, f: int): seq<int> {
    if tasks == [] then []
    else (if tasks[0].vertex == vertex && tasks[0].feature == f then tasks[0].row else []) + Gathered(tasks[1..], vertex, f)
  }

  lemma Regroup(a: seq<int>, b: seq<int>, c: seq<int>)
    ensures a + (b + c) == (a + b) + c
  {
  }

  lemma {:induction false} GatheredConcat(a: seq<Task>, b: seq<Task>, vertex: int, f: int)
    ensures Gathered(a + b, vertex, f) == Gathered(a, vertex, f) + Gathered(b, vertex, f)
  {
    if a == [] {
      assert a + b == b;
    } else {
      var here := if a[0].vertex == vertex && a[0].feature == f then a[0].row else [];
      GatheredConcat(a[1..], b, vertex, f);
      assert (a + b)[1..] == a[1..] + b;
      Regroup(here, Gathered(a[1..], vertex, f), Gathered(b, vertex, f));
    }
  }

  lemma {:induction false} RowGathered(cfg: Setup, v: int, row: seq<int>, g: nat, vertex: int, f: nat)
    requires g <= cfg.featureChunks
    ensures Gathered(RowTasks(cfg, v, row, g), vertex, f) == if v == vertex && g <= f < cfg.featureChunks then row else []
    decreases cfg.featureChunks - g
  {
    if g < cfg.featureChunks && row != [] {
      RowGathered(cfg, v, row, g + 1, vertex, f);
      var tail := RowTasks(cfg, v, row, g + 1);
      assert ([Task(v, g, row)] + tail)[1..] == tail;
    }
  }

  lemma PartUnfold(cfg: Setup, start: int, rows: Rows, v: nat, vertex: int, f: nat)
    requires v <= |rows|
    ensures v < |rows| ==> PartTasks(cfg, start, rows, v) == RowTasks(cfg, start + v, rows[v], 0) + PartTasks(cfg, start, rows, v + 1)
    ensures v == |rows| ==> Gathered(PartTasks(cfg, start, rows, v), vertex, f) == []
  {
  }

  lemma {:induction false} PartGathered(cfg: Setup, start: int, rows: Rows, v: nat, vertex: int, f: nat)
    requires v <= |rows| && f < cfg.featureChunks
    ensures Gathered(PartTasks(cfg, start, rows, v), vertex, f) ==
              if start + v <= vertex < start + |rows| then rows[vertex - start] else []
    decreases |rows| - v
  {
    hide *;
    PartUnfold(cfg, start, rows, v, vertex, f);
    if v < |rows| {
      PartGathered(cfg, start, rows, v + 1, vertex, f);
      RowGathered(cfg, start + v, rows[v], 0, vertex, f);
      GatheredConcat(RowTasks(cfg, start + v, rows[v], 0), PartTasks(cfg, start, rows, v + 1), vertex, f);
    }
  }

  lemma {:induction false} PartsGathered(cfg: Setup, start: int, parts: seq<Rows>, p: nat, n: nat, vertex: int, f: nat)
    requires p <= |parts| && f < cfg.featureChunks && forall q :: 0 <= q < |parts| ==> |parts[q]| == n
    ensures Gathered(PartsTasks(cfg, start, parts, p), vertex, f) ==
              if start <= vertex < start + n then RowOf(parts[p..], vertex - start) else []
    decreases |parts| - p
  {
    if p < |parts| {
      PartsGathered(cfg, start, parts, p + 1, n, vertex, f);
      PartGathered(cfg, start, parts[p], 0, vertex, f);
      GatheredConcat(PartTasks(cfg, start, parts[p], 0), PartsTasks(cfg, start, parts, p + 1), vertex, f);
      assert parts[p..][1..] == parts[p + 1..];
    }
  }

  lemma PartitionGathered(cfg: Setup, start: int, rows: Rows, parts: seq<Rows>, vertex: int, f: nat)
    requires SourcesBelow(rows, cfg.numVertex) && 0 < cfg.interval && parts == Parts(rows, cfg.numVertex, cfg.interval)
    requires f < cfg.featureChunks
    ensures Gathered(PartsTasks(cfg, start, parts, 0), vertex, f) ==
              if start <= vertex < start + |rows| then rows[vertex - start] else []
  {
    hide *;
    PartsGathered(cfg, start, parts, 0, |rows|, vertex, f);
    assert parts[0..] == parts;
    if start <= vertex < start + |rows| {
      PartsRestoreRow(rows, cfg.numVertex, cfg.interval, vertex - start);
    }
  }

  lemma ChunkFacts(cfg: Setup, c: nat)
    requires cfg.Valid() && c < |cfg.chunks|
    ensures SourcesBelow(cfg.chunks[c].rows, cfg.numVertex) && 0 < cfg.interval
    ensures cfg.PartsOf(c) == Parts(cfg.chunks[c].rows, cfg.numVertex, cfg.interval)
    ensures cfg.chunks[c].start == cfg.StartOf(c) && cfg.StartOf(c + 1) == cfg.StartOf(c) + |cfg.chunks[c].rows|
  {
    assert cfg.ChunkOk(c);
  }

  lemma ChunkGathered(cfg: Setup, c: nat, vertex: int, f: nat)
    requires cfg.Valid() && c < |cfg.chunks| && f < cfg.featureChunks
    ensures Gathered(PartsTasks(cfg, cfg.chunks[c].start, cfg.PartsOf(c), 0), vertex, f) ==
              if cfg.StartOf(c) <= vertex < cfg.StartOf(c + 1) then cfg.chunks[c].rows[vertex - cfg.StartOf(c)] else []
  {
    hide *;
    ChunkFacts(cfg, c);
    PartitionGathered(cfg, cfg.chunks[c].start, cfg.chunks[c].rows, cfg.PartsOf(c), vertex, f);
  }

  lemma GatheredStep(cfg: Setup, c: nat, vertex: int, f: nat)
    requires cfg.Valid() && c < |cfg.chunks| && f < cfg.featureChunks
    ensures Gathered(ChunksTasks(cfg, c), vertex, f) ==
              (if cfg.StartOf(c) <= vertex < cfg.StartOf(c + 1) then cfg.chunks[c].rows[vertex - cfg.StartOf(c)] else [])
              + Gathered(ChunksTasks(cfg, c + 1), vertex, f)
  {
    ChunkGathered(cfg, c, vertex, f);
    GatheredConcat(PartsTasks(cfg, cfg.chunks[c].start, cfg.PartsOf(c), 0), ChunksTasks(cfg, c + 1), vertex, f);
  }

  lemma {:induction false} LaterChunks(cfg: Setup, c: nat, vertex: int, f: nat)
    requires cfg.Valid() && c <= |cfg.chunks| && vertex < cfg.StartOf(c) && f < cfg.featureChunks
    ensures Gathered(ChunksTasks(cfg, c), vertex, f) == []
    decreases |cfg.chunks| - c
  {
    if c < |cfg.chunks| {
      LaterChunks(cfg, c + 1, vertex, f);
      GatheredStep(cfg, c, vertex, f);
    }
  }

  lemma {:induction false} StartsGrow(cfg: Setup, c: nat, d: nat)
    requires c <= d <= |cfg.chunks|
    ensures cfg.StartOf(c) <= cfg.StartOf(d)
  {
    if c < d {
      StartsGrow(cfg, c, d - 1);
    }
  }

  lemma InChunk(cfg: Setup, c: nat, i: nat)
    requires cfg.Valid() && c < |cfg.chunks| && i < |cfg.chunks[c].rows|
    ensures cfg.StartOf(c) <= cfg.StartOf(c) + i < cfg.StartOf(c + 1)
  {
  }

  // Every slice of every vertex gets exactly the vertex's row, in its order.
  lemma {:induction false} AllGathered(cfg: Setup, from: nat, c: nat, i: nat, f: nat)
    requires cfg.Valid() && from <= c < |cfg.chunks| && i < |cfg.chunks[c].rows| && f < cfg.featureChunks
    ensures Gathered(ChunksTasks(cfg, from), cfg.StartOf(c) + i, f) == cfg.chunks[c].rows[i]
    decreases c - from
  {
    hide *;
    var vertex := cfg.StartOf(c) + i;
    InChunk(cfg, c, i);
    GatheredStep(cfg, from, vertex, f);
    if from < c {
      StartsGrow(cfg, from + 1, c);
      AllGathered(cfg, from + 1, c, i, f);
    } else {
      LaterChunks(cfg, c + 1, vertex, f);
    }
  }
}
