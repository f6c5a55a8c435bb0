// From the graph to the finished aggregation: the greedy chunks are what the
// engine needs, and the engine's result is then about the graph itself.
module GraphAggregation {
  import opened EdgePartition
  import opened AggrSpec
  import opened AggrTasks
  import opened AggrInvariant
  import opened AggrTheorems
  import opened EdgeChunks

  // edge_chunk with start_vertex_of_echunk.
  function ChunksOf(adj: Rows, a: nat, ends: seq<nat>): seq<Chunk>
    requires CutsUp(adj, a, ends)
    decreases |ends|
  {
    if ends == [] then [] else [Chunk(a, adj[a..ends[0]])] + ChunksOf(adj, ends[0], ends[1..])
  }

  predicate CutsUp(adj: Rows, a: nat, ends: seq<nat>)
    decreases |ends|
  {
    if ends == [] then a == |adj| else a < ends[0] <= |adj| && CutsUp(adj, ends[0], ends[1..])
  }

  lemma {:induction false} ChunkingCutsUp(lim: Limits, adj: Rows, a: nat, ends: seq<nat>)
    requires Chunking(lim, adj, a, ends)
    ensures CutsUp(adj, a, ends)
    decreases |ends|
  {
    if ends != [] {
      ChunkingCutsUp(lim, adj, ends[0], ends[1..]);
    }
  }

  // Chunk c starts at the end of chunk c - 1 and holds the graph's rows from there on.
  predicate CutFrom(adj: Rows, a: nat, chunks: seq<Chunk>) {
    && (forall c :: 0 <= c < |chunks| ==>
          && a <= chunks[c].start && chunks[c].rows != [] && chunks[c].start + |chunks[c].rows| <= |adj|
          && chunks[c].rows == adj[chunks[c].start..chunks[c].start + |chunks[c].rows|]
          && chunks[c].start == (if c == 0 then a else chunks[c - 1].start + |chunks[c - 1].rows|))
    && (if chunks == [] then a == |adj|
        else chunks[0].start == a && chunks[|chunks| - 1].start + |chunks[|chunks| - 1].rows| == |adj|)
  }

  lemma CutOne(adj: Rows, a: nat, b: nat, rest: seq<Chunk>)
    requires a < b <= |adj| && CutFrom(adj, b, rest)
    ensures CutFrom(adj, a, [Chunk(a, adj[a..b])] + rest)
  {
    var all := [Chunk(a, adj[a..b])] + rest;
    forall c | 0 <= c < |all|
      ensures a <= all[c].start && all[c].rows != [] && all[c].start + |all[c].rows| <= |adj|
              && all[c].rows == adj[all[c].start..all[c].start + |all[c].rows|]
              && all[c].start == (if c == 0 then a else all[c - 1].start + |all[c - 1].rows|)
    {
      if c > 0 {
        assert all[c] == rest[c - 1];
      }
    }
  }

  lemma {:induction false} ChunksCut(adj: Rows, a: nat, ends: seq<nat>)
    requires CutsUp(adj, a, ends)
    ensures CutFrom(adj, a, ChunksOf(adj, a, ends))
    decreases |ends|
  {
    if ends != [] {
      ChunksCut(adj, ends[0], ends[1..]);
      CutOne(adj, a, ends[0], ChunksOf(adj, ends[0], ends[1..]));
    }
  }

  lemma {:induction false} StartsAgree(cfg: Setup, adj: Rows, c: nat)
    requires CutFrom(adj, 0, cfg.chunks) && c <= |cfg.chunks|
    ensures cfg.StartOf(c) == if c < |cfg.chunks| then cfg.chunks[c].start else |adj|
  {
    if c > 0 {
      StartsAgree(cfg, adj, c - 1);
    }
  }

  lemma CutIsValid(cfg: Setup, adj: Rows)
    requires CutFrom(adj, 0, cfg.chunks) && SourcesBelow(adj, cfg.numVertex)
    requires 0 < cfg.interval && 0 < cfg.featureChunks && 0 < cfg.capacity
    ensures cfg.Valid()
  {
    forall c | 0 <= c < |cfg.chunks|
      ensures cfg.ChunkOk(c)
    {
      StartsAgree(cfg, adj, c);
      var rows, start := cfg.chunks[c].rows, cfg.chunks[c].start;
      forall i, j | 0 <= i < |rows| && 0 <= j < |rows[i]|
        ensures rows[i][j] < cfg.numVertex
      {
        assert rows[i] == adj[start + i];
      }
    }
  }

  lemma {:induction false} SizeConcat(a: Rows, b: Rows)
    ensures Size(a + b) == Size(a) + Size(b)
  {
    if b == [] {
      assert a + b == a;
    } else {
      var n := |b| - 1;
      SizeConcat(a, b[..n]);
      assert (a + b)[..|a| + n] == a + b[..n];
    }
  }

  lemma CutAt(cfg: Setup, adj: Rows, c: nat)
    requires CutFrom(adj, 0, cfg.chunks) && c <= |cfg.chunks|
    ensures 0 <= cfg.StartOf(c) <= |adj|
    ensures c < |cfg.chunks| ==> 0 <= cfg.StartOf(c + 1) <= |adj|
                                 && adj[cfg.StartOf(c)..] == cfg.chunks[c].rows + adj[cfg.StartOf(c + 1)..]
                                 && Edges(cfg, c) == Size(cfg.chunks[c].rows) + Edges(cfg, c + 1)
    ensures c == |cfg.chunks| ==> cfg.StartOf(c) == |adj| && Edges(cfg, c) == 0
  {
    StartsAgree(cfg, adj, c);
    if c < |cfg.chunks| {
      StartsAgree(cfg, adj, c + 1);
    }
  }

  lemma NoRows()
    ensures Size([]) == 0
  {
  }

  lemma {:induction false} EdgesOfCut(cfg: Setup, adj: Rows, c: nat)
    requires CutFrom(adj, 0, cfg.chunks) && c <= |cfg.chunks|
    ensures 0 <= cfg.StartOf(c) <= |adj| && Edges(cfg, c) == Size(adj[cfg.StartOf(c)..])
    decreases |cfg.chunks| - c
  {
    hide *;
    CutAt(cfg, adj, c);
    if c < |cfg.chunks| {
      EdgesOfCut(cfg, adj, c + 1);
      SizeConcat(cfg.chunks[c].rows, adj[cfg.StartOf(c + 1)..]);
    } else {
      assert adj[|adj|..] == [];
      NoRows();
    }
  }

  lemma RowAtVertex(cfg: Setup, adj: Rows, v: nat, c: nat)
    requires CutFrom(adj, 0, cfg.chunks) && c < |cfg.chunks| && cfg.StartOf(c) <= v < cfg.StartOf(c + 1)
    ensures v < |adj| && v < cfg.StartOf(c) + |cfg.chunks[c].rows| && cfg.chunks[c].rows[v - cfg.StartOf(c)] == adj[v]
  {
    StartsAgree(cfg, adj, c);
  }

  lemma {:induction false} ChunkOfVertex(cfg: Setup, adj: Rows, v: nat, n: nat) returns (c: nat)
    requires CutFrom(adj, 0, cfg.chunks) && n <= |cfg.chunks| && v < cfg.StartOf(n)
    ensures v < |adj| && c < |cfg.chunks| && cfg.StartOf(c) <= v < cfg.StartOf(c) + |cfg.chunks[c].rows|
    ensures cfg.chunks[c].rows[v - cfg.StartOf(c)] == adj[v]
  {
    hide *;
    StartIsZero(cfg, adj);
    if v < cfg.StartOf(n - 1) {
      c := ChunkOfVertex(cfg, adj, v, n - 1);
    } else {
      c := n - 1;
      RowAtVertex(cfg, adj, v, c);
    }
  }

  lemma VertexAggregated(adj: Rows, cfg: Setup, numSimds: nat, ops: seq<Op>, v: nat, f: nat)
    requires cfg.Valid() && CutFrom(adj, 0, cfg.chunks) && v < |adj| && f < cfg.featureChunks
    requires Run(cfg, Init(cfg, numSimds), ops).isDone
    ensures Gathered(Run(cfg, Init(cfg, numSimds), ops).started, v, f) == adj[v]
  {
    hide *;
    StartsAgree(cfg, adj, |cfg.chunks|);
    var c := ChunkOfVertex(cfg, adj, v, |cfg.chunks|);
    DoneMeansEveryRow(cfg, numSimds, ops, c, v - cfg.StartOf(c), f);
  }

  lemma StartIsZero(cfg: Setup, adj: Rows)
    requires CutFrom(adj, 0, cfg.chunks)
    ensures cfg.StartOf(0) == 0
  {
    StartsAgree(cfg, adj, 0);
    assert cfg.chunks != [] ==> cfg.chunks[0].start == 0;
  }

  lemma AllEdges(adj: Rows, cfg: Setup, numSimds: nat, ops: seq<Op>)
    requires cfg.Valid() && CutFrom(adj, 0, cfg.chunks)
    requires Run(cfg, Init(cfg, numSimds), ops).isDone
    ensures Macs(Run(cfg, Init(cfg, numSimds), ops).simds) == Size(adj) * cfg.featureChunks * cfg.width
  {
    hide *;
    DoneMeansAll(cfg, numSimds, ops);
    StartIsZero(cfg, adj);
    EdgesOfCut(cfg, adj, 0);
    assert adj[0..] == adj;
  }

  // The whole path, for a graph whose vertices all fit a chunk: the engine on the
  // greedy chunks is well set up, and when it is done every vertex has aggregated
  // its row once per slice and the operations are edges times slices times width.
  lemma GraphAggregated(adj: Rows, lim: Limits, cfg: Setup, numSimds: nat, ops: seq<Op>, v: nat, f: nat)
    requires lim.AllAlone(adj) && 0 < lim.maxVertex
    requires CutsUp(adj, 0, Greedy(lim, adj, 0)) ==> cfg.chunks == ChunksOf(adj, 0, Greedy(lim, adj, 0))
    requires SourcesBelow(adj, cfg.numVertex) && 0 < cfg.interval && 0 < cfg.featureChunks && 0 < cfg.capacity
    requires v < |adj| && f < cfg.featureChunks
    ensures cfg.Valid()
    ensures var s := Run(cfg, Init(cfg, numSimds), ops);
            s.isDone ==> Gathered(s.started, v, f) == adj[v] && Macs(s.simds) == Size(adj) * cfg.featureChunks * cfg.width
  {
    hide *;
    var ends := Greedy(lim, adj, 0);
    GreedyIsChunking(lim, adj, 0);
    ChunkingCutsUp(lim, adj, 0, ends);
    ChunksCut(adj, 0, ends);
    CutIsValid(cfg, adj);
    if Run(cfg, Init(cfg, numSimds), ops).isDone {
      VertexAggregated(adj, cfg, numSimds, ops, v, f);
      AllEdges(adj, cfg, numSimds, ops);
    }
  }

  // ------------------------------------------------------------------- addresses

  lemma ScaleLeft(k: nat, x: nat, y: nat)
    requires x <= y
    ensures k * x <= k * y
  {
  }

  lemma ScaleRight(k: nat, n: nat, y: nat)
    requires k < n && 0 < y
    ensures k * y < n * y
  {
  }

  // The assertions on the addresses of edge and feature fetches hold: a chunk's
  // edges and a source's features start inside their regions.
  lemma FetchesInRegion(chunk: nat, numChunks: nat, bytes: nat, space: nat, source: nat, numVertex: nat, vector: nat)
    requires chunk < numChunks && bytes <= space && 0 < space
    requires source < numVertex && 0 < vector
    ensures chunk * bytes < numChunks * space
    ensures source * vector < numVertex * vector
  {
    ScaleLeft(chunk, bytes, space);
    ScaleRight(chunk, numChunks, space);
    ScaleRight(source, numVertex, vector);
  }
}
