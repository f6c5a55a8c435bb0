// The greedy edge chunker (hygcn/config.cpp, AddrMapper): consecutive vertices
// are packed into chunks of at most `space` bytes and `maxVertex` vertices.
module EdgeChunks {
  import opened Basics
  import opened EdgePartition

  // What one vertex takes: its own index, and an index and a value for each edge.
  function VertexBytes(row: seq<int>, idxBytes: nat, dataBytes: nat): nat {
    idxBytes + |row| * (idxBytes + dataBytes)
  }

  function Bytes(adj: Rows, a: nat, b: nat, idxBytes: nat, dataBytes: nat): nat
    requires a <= b <= |adj|
  {
    if a == b then 0 else Bytes(adj, a, b - 1, idxBytes, dataBytes) + VertexBytes(adj[b - 1], idxBytes, dataBytes)
  }

  // The limits of a chunk.
  datatype Limits = Limits(idxBytes: nat, dataBytes: nat, space: nat, maxVertex: nat) {
    predicate Fits(adj: Rows, a: nat, b: nat)
      requires a <= b <= |adj|
    {
      Bytes(adj, a, b, idxBytes, dataBytes) <= space && b - a <= maxVertex
    }

    predicate Alone(adj: Rows, i: nat)
      requires i < |adj|
    {
      VertexBytes(adj[i], idxBytes, dataBytes) <= space
    }

    predicate AllAlone(adj: Rows) { forall i :: 0 <= i < |adj| ==> Alone(adj, i) }
  }

  lemma {:induction false} BytesShrink(adj: Rows, a: nat, a': nat, b': nat, b: nat, idx: nat, data: nat)
    requires a <= a' <= b' <= b <= |adj|
    ensures Bytes(adj, a', b', idx, data) <= Bytes(adj, a, b, idx, data)
    decreases b
  {
    if b' < b {
      BytesShrink(adj, a, a', b', b - 1, idx, data);
    } else if a' < b' {
      BytesShrink(adj, a, a', b' - 1, b - 1, idx, data);
    }
  }

  // -------------------------------------------------------------- any chunking

  // `ends` cuts the vertices from a on into non-empty chunks that fit.
  predicate Chunking(lim: Limits, adj: Rows, a: nat, ends: seq<nat>)
    decreases |ends|
  {
    if ends == [] then a == |adj|
    else a < ends[0] <= |adj| && lim.Fits(adj, a, ends[0]) && Chunking(lim, adj, ends[0], ends[1..])
  }

  // -------------------------------------------------------------------- greedy

  // The furthest end of a chunk that starts at a and already reaches b.
  function Reach(lim: Limits, adj: Rows, a: nat, b: nat): (e: nat)
    requires a <= b <= |adj| && lim.Fits(adj, a, b)
    ensures b <= e <= |adj| && lim.Fits(adj, a, e)
    ensures e < |adj| ==> !lim.Fits(adj, a, e + 1)
    decreases |adj| - b
  {
    if b < |adj| && lim.Fits(adj, a, b + 1) then Reach(lim, adj, a, b + 1) else b
  }

  lemma OneFits(lim: Limits, adj: Rows, a: nat)
    requires a < |adj| && lim.Alone(adj, a) && 0 < lim.maxVertex
    ensures lim.Fits(adj, a, a + 1)
  {
    assert Bytes(adj, a, a, lim.idxBytes, lim.dataBytes) == 0;
  }

  function Greedy(lim: Limits, adj: Rows, a: nat): seq<nat>
    requires a <= |adj| && lim.AllAlone(adj) && 0 < lim.maxVertex
    decreases |adj| - a
  {
    if a == |adj| then []
    else
      OneFits(lim, adj, a);
      var e := Reach(lim, adj, a, a + 1);
      [e] + Greedy(lim, adj, e)
  }

  lemma {:induction false} GreedyIsChunking(lim: Limits, adj: Rows, a: nat)
    requires a <= |adj| && lim.AllAlone(adj) && 0 < lim.maxVertex
    ensures Chunking(lim, adj, a, Greedy(lim, adj, a))
    decreases |adj| - a
  {
    if a < |adj| {
      OneFits(lim, adj, a);
      GreedyIsChunking(lim, adj, Reach(lim, adj, a, a + 1));
    }
  }

  // A greedy chunk reaches as far as any chunk that starts no later.
  lemma ReachesFurther(lim: Limits, adj: Rows, a: nat, b: nat, g: nat)
    requires a <= g < |adj| && a < b <= |adj| && lim.Fits(adj, a, b) && lim.Fits(adj, g, g + 1)
    ensures b <= Reach(lim, adj, g, g + 1)
  {
    var e := Reach(lim, adj, g, g + 1);
    if e < b {
      BytesShrink(adj, a, g, e + 1, b, lim.idxBytes, lim.dataBytes);
    }
  }

  lemma {:induction false} GreedyStaysAhead(lim: Limits, adj: Rows, a: nat, ends: seq<nat>, g: nat)
    requires a <= g <= |adj| && lim.AllAlone(adj) && 0 < lim.maxVertex && Chunking(lim, adj, a, ends)
    ensures |Greedy(lim, adj, g)| <= |ends|
    decreases |ends|
  {
    if g < |adj| {
      OneFits(lim, adj, g);
      ReachesFurther(lim, adj, a, ends[0], g);
      GreedyStaysAhead(lim, adj, ends[0], ends[1..], Reach(lim, adj, g, g + 1));
    }
  }

  // No chunking within the limits has fewer chunks.
  lemma GreedyIsMinimal(lim: Limits, adj: Rows, ends: seq<nat>)
    requires lim.AllAlone(adj) && 0 < lim.maxVertex && Chunking(lim, adj, 0, ends)
    ensures |Greedy(lim, adj, 0)| <= |ends|
  {
    GreedyStaysAhead(lim, adj, 0, ends, 0);
  }

  // --------------------------------------------------------------------- the loop

  // What the loop has closed, and the chunk it is filling.
  predicate Filling(lim: Limits, adj: Rows, ends: seq<nat>, last: nat, i: nat, edgeSize: nat, vertexSize: nat) {
    && last <= i <= |adj| && vertexSize == i - last
    && last == (if ends == [] then 0 else ends[|ends| - 1])
    && edgeSize == Bytes(adj, last, i, lim.idxBytes, lim.dataBytes)
    && lim.Fits(adj, last, i)
  }

  lemma {:induction false} ReachAgain(lim: Limits, adj: Rows, a: nat, b: nat, c: nat)
    requires a <= b <= c <= |adj| && lim.Fits(adj, a, b) && lim.Fits(adj, a, c)
    ensures Reach(lim, adj, a, b) == Reach(lim, adj, a, c)
    decreases c - b
  {
    if b < c {
      BytesShrink(adj, a, a, b + 1, c, lim.idxBytes, lim.dataBytes);
      ReachAgain(lim, adj, a, b + 1, c);
    }
  }

  lemma CloseIsReach(lim: Limits, adj: Rows, last: nat, i: nat)
    requires last < i < |adj| && lim.AllAlone(adj) && 0 < lim.maxVertex && lim.Fits(adj, last, i) && !lim.Fits(adj, last, i + 1)
    ensures Greedy(lim, adj, last) == [i] + Greedy(lim, adj, i)
  {
    OneFits(lim, adj, last);
    ReachAgain(lim, adj, last, last + 1, i);
  }

  lemma RestIsReach(lim: Limits, adj: Rows, last: nat)
    requires last < |adj| && lim.AllAlone(adj) && 0 < lim.maxVertex && lim.Fits(adj, last, |adj|)
    ensures Greedy(lim, adj, last) == [|adj|]
  {
    OneFits(lim, adj, last);
    ReachAgain(lim, adj, last, last + 1, |adj|);
  }

  lemma BytesPositive(adj: Rows, a: nat, b: nat, idx: nat, data: nat)
    requires a < b <= |adj| && 0 < idx
    ensures Bytes(adj, a, b, idx, data) > 0
  {
  }

  lemma FillNext(lim: Limits, adj: Rows, ends: seq<nat>, last: nat, i: nat, edgeSize: nat, vertexSize: nat, info: nat)
    requires Filling(lim, adj, ends, last, i, edgeSize, vertexSize) && i < |adj|
    requires info == VertexBytes(adj[i], lim.idxBytes, lim.dataBytes)
    requires edgeSize + info <= lim.space && vertexSize <= lim.maxVertex - 1
    ensures Filling(lim, adj, ends, last, i + 1, edgeSize + info, vertexSize + 1)
  {
  }

  lemma FillClose(lim: Limits, adj: Rows, ends: seq<nat>, last: nat, i: nat, edgeSize: nat, vertexSize: nat, info: nat)
    requires Filling(lim, adj, ends, last, i, edgeSize, vertexSize) && i < |adj|
    requires info == VertexBytes(adj[i], lim.idxBytes, lim.dataBytes) && info <= lim.space && 0 < lim.maxVertex
    requires edgeSize + info > lim.space || vertexSize > lim.maxVertex - 1
    ensures last < i && lim.Fits(adj, last, i) && !lim.Fits(adj, last, i + 1)
    ensures Filling(lim, adj, ends + [i], i, i, 0, 0) && vertexSize > 0
  {
  }

  lemma FillEnds(lim: Limits, adj: Rows, ends: seq<nat>, last: nat, edgeSize: nat, vertexSize: nat)
    requires Filling(lim, adj, ends, last, |adj|, edgeSize, vertexSize) && 0 < lim.idxBytes
    ensures last <= |adj| && lim.Fits(adj, last, |adj|) && (edgeSize != 0 <==> last < |adj|)
  {
    if last < |adj| {
      BytesPositive(adj, last, |adj|, lim.idxBytes, lim.dataBytes);
    }
  }

  ghost predicate AloneBefore(lim: Limits, adj: Rows, i: nat)
    requires i <= |adj|
  {
    forall k :: 0 <= k < i ==> lim.Alone(adj, k)
  }

  lemma AloneNext(lim: Limits, adj: Rows, i: nat, info: nat)
    requires i < |adj| && info == VertexBytes(adj[i], lim.idxBytes, lim.dataBytes)
    ensures if info > lim.space then !lim.AllAlone(adj) else AloneBefore(lim, adj, i) ==> AloneBefore(lim, adj, i + 1)
  {
    assert lim.AllAlone(adj) ==> lim.Alone(adj, i);
  }

  // Closing a chunk at i goes on with the greedy list.
  lemma CloseKeeps(lim: Limits, adj: Rows, ends: seq<nat>, last: nat, i: nat)
    requires last < i < |adj| && lim.AllAlone(adj) && 0 < lim.maxVertex && lim.Fits(adj, last, i) && !lim.Fits(adj, last, i + 1)
    ensures ends + Greedy(lim, adj, last) == (ends + [i]) + Greedy(lim, adj, i)
  {
    CloseIsReach(lim, adj, last, i);
  }

  lemma RestKeeps(lim: Limits, adj: Rows, ends: seq<nat>, last: nat)
    requires last <= |adj| && lim.AllAlone(adj) && 0 < lim.maxVertex && lim.Fits(adj, last, |adj|)
    ensures ends + Greedy(lim, adj, last) == if last < |adj| then ends + [|adj|] else ends
  {
    if last < |adj| {
      RestIsReach(lim, adj, last);
    }
  }

  lemma FillStart(lim: Limits, adj: Rows)
    ensures Filling(lim, adj, [], 0, 0, 0, 0) && AloneBefore(lim, adj, 0)
    ensures AloneBefore(lim, adj, |adj|) <==> lim.AllAlone(adj)
  {
  }

  // None is AbruptExit: a vertex that does not fit into a chunk of its own.
  method BuildChunks(adj: Rows, lim: Limits) returns (r: Option<seq<nat>>)
    requires 0 < lim.idxBytes && 0 < lim.maxVertex
    ensures r.None? <==> !lim.AllAlone(adj)
    ensures r.Some? ==> r.value == Greedy(lim, adj, 0)
  {
    hide *;
    var endVertex: seq<nat> := [];
    var edgeSize: nat, vertexSize: nat, i: nat := 0, 0, 0;
    ghost var last: nat := 0;
    FillStart(lim, adj);
    while i < |adj|
      invariant last <= i <= |adj| && Filling(lim, adj, endVertex, last, i, edgeSize, vertexSize) && AloneBefore(lim, adj, i)
      invariant lim.AllAlone(adj) ==> endVertex + Greedy(lim, adj, last) == Greedy(lim, adj, 0)
      decreases |adj| - i, vertexSize
    {
      var info := VertexBytes(adj[i], lim.idxBytes, lim.dataBytes);
      AloneNext(lim, adj, i, info);
      if info > lim.space {
        return None;
      }
      if edgeSize + info > lim.space || vertexSize > lim.maxVertex - 1 {
        FillClose(lim, adj, endVertex, last, i, edgeSize, vertexSize, info);
        if lim.AllAlone(adj) {
          CloseKeeps(lim, adj, endVertex, last, i);
        }
        endVertex := endVertex + [i];
        edgeSize, vertexSize := 0, 0;
        last := i;
      } else {
        FillNext(lim, adj, endVertex, last, i, edgeSize, vertexSize, info);
        edgeSize, vertexSize, i := edgeSize + info, vertexSize + 1, i + 1;
      }
    }
    FillEnds(lim, adj, endVertex, last, edgeSize, vertexSize);
    RestKeeps(lim, adj, endVertex, last);
    if edgeSize != 0 {
      endVertex := endVertex + [|adj|];
    }
    return Some(endVertex);
  }
}
