// Where in the ring of the aggregation buffer the running sums of a chunk live: each
// slice of each vertex has a stretch of its own, behind the place that the chunk was
// given when it was opened.
module AggrPlaces {
  import opened Basics
  import opened EdgePartition
  import opened AggrSpec
  import opened AggrTasks
  import opened AggrInvariant
  import opened AggrTheorems
  import opened AggrRing

  // ------------------------------------------------------------------ the pointers

  // A pointer of the ring stands as many vectors on as it has passed vertices.
  predicate AtPlace(cfg: Setup, p: Pointer)
    requires 0 < cfg.capacity
  {
    p.place == ((p.vertex - cfg.Start()) * cfg.sizeVector) % cfg.capacity
  }

  predicate BothPlaced(cfg: Setup, s: Engine)
    requires 0 < cfg.capacity
  {
    AtPlace(cfg, s.ready) && AtPlace(cfg, s.aggr)
  }

  lemma ModAdd(m: int, x: int, n: nat)
    requires 0 < n
    ensures (m % n + x) % n == (m + x) % n
    ensures (n + m % n + x) % n == (m + x) % n
  {
    var q, r := (m + x) / n, (m + x) % n;
    assert m + x == q * n + r && m == m / n * n + m % n;
    Distribute(q, -(m / n), n);
    Quotient(m % n + x, n, q - m / n, r);
    Distribute(q - m / n, 1, n);
    Quotient(n + m % n + x, n, q - m / n + 1, r);
  }

  lemma AdvancePlace(cfg: Setup, p: Pointer, n: int)
    requires 0 < cfg.capacity && AtPlace(cfg, p)
    ensures AtPlace(cfg, Advance(cfg, p, n))
  {
    var v := p.vertex - cfg.Start();
    ModAdd(v * cfg.sizeVector, n * cfg.sizeVector, cfg.capacity);
    Distribute(v, n, cfg.sizeVector);
    assert p.vertex + n - cfg.Start() == v + n;
  }

  lemma ConfirmPlaced(cfg: Setup, s: Engine, e: int)
    requires cfg.Valid() && BothPlaced(cfg, s)
    ensures BothPlaced(cfg, ConfirmPart(cfg, s, e))
  {
    hide AtPlace, Advance;
    if 0 <= e < |s.ebuf| {
      AdvancePlace(cfg, s.ready, s.ebuf[e].end - s.ebuf[e].start);
    }
  }

  lemma StepSimdPlaced(cfg: Setup, s: Engine, i: nat)
    requires cfg.Valid() && i < |s.simds| && BothPlaced(cfg, s)
    ensures BothPlaced(cfg, StepSimd(cfg, s, i))
  {
    hide AtPlace, ConfirmPart;
    var s1 := s.(simds := s.simds[i := s.simds[i].ClockTick()]);
    var d := s1.simds[i];
    if 0 <= d.inbuf < |s1.inbuf| {
      var ib := s1.inbuf[d.inbuf].(events := s1.inbuf[d.inbuf].events - 1);
      var s2 := s1.(eventOut := s1.eventOut + 1, finished := s1.finished + [d.Job()], simds := s1.simds[i := d.Release()],
                    inbuf := s1.inbuf[d.inbuf := ib.SwitchState(Idle)]);
      ConfirmPlaced(cfg, s2, ib.ebuf);
    }
  }

  lemma {:induction false} StepSimdsPlaced(cfg: Setup, s: Engine, n: nat)
    requires cfg.Valid() && n <= |s.simds| && BothPlaced(cfg, s)
    ensures BothPlaced(cfg, StepSimds(cfg, s, n))
  {
    hide BothPlaced, StepSimd;
    if n > 0 {
      StepSimdsPlaced(cfg, s, n - 1);
      if !StepSimds(cfg, s, n - 1).failed {
        StepSimdPlaced(cfg, StepSimds(cfg, s, n - 1), n - 1);
      }
    }
  }

  lemma {:induction false} FeedPlaced(cfg: Setup, s: Engine, p: nat)
    requires cfg.Valid() && p < |s.inbuf|
    ensures Feed(cfg, s, p).ready == s.ready && Feed(cfg, s, p).aggr == s.aggr
    decreases s.inbuf[p].end - s.inbuf[p].vertexPtr, FreeCount(s.simds)
  {
    var k := FreeSimd(s.simds);
    var b := s.inbuf[p];
    if !s.failed && k < |s.simds| && b.vertexPtr < b.end && 0 <= b.vertexPtr - b.start < |b.edges| {
      if b.edges[b.vertexPtr - b.start] == [] {
        FeedPlaced(cfg, s.(inbuf := s.inbuf[p := b.(vertexPtr := b.vertexPtr + 1)]), p);
      } else {
        FeedDecreases(cfg, s, p, k);
        AssignKeepsPointers(cfg, s, p, k);
        if !Assign(cfg, s, p, k).failed {
          FeedPlaced(cfg, Assign(cfg, s, p, k), p);
        }
      }
    }
    hide Assign, FreeCount, FreeSimd;
  }

  lemma AssignKeepsPointers(cfg: Setup, s: Engine, p: nat, k: nat)
    requires cfg.Valid() && p < |s.inbuf| && k < |s.simds|
    requires 0 <= s.inbuf[p].vertexPtr - s.inbuf[p].start < |s.inbuf[p].edges|
    ensures Assign(cfg, s, p, k).ready == s.ready && Assign(cfg, s, p, k).aggr == s.aggr
  {
    hide WriteAddr;
  }

  lemma FillPlaced(cfg: Setup, s: Engine, will: bool)
    requires cfg.Valid() && s.chunkCnt <= |cfg.chunks| && BothPlaced(cfg, s)
    ensures BothPlaced(cfg, FillInput(cfg, FillEdge(cfg, s), will))
  {
    hide AtPlace, Advance, BindPart, Target;
    var s1 := FillEdge(cfg, s);
    assert s1.ready == s.ready && s1.aggr == s.aggr;
    if Has(s1.ebuf, Ready) {
      var e := FirstReadyChunk(s1.ebuf);
      AdvancePlace(cfg, s1.aggr, s1.ebuf[e].end - s1.ebuf[e].start);
      if Has(s1.inbuf, Idle) && 0 <= s1.ebuf[e].partCnt < |s1.ebuf[e].parts| {
        BindKeepsPointers(OpenChunk(cfg, s1, e), Target(s1.inbuf, Idle), e);
      }
    }
    if Has(s1.inbuf, Idle) && Has(s1.ebuf, Draining) {
      var e := Target(s1.ebuf, Draining);
      if 0 <= s1.ebuf[e].partCnt < |s1.ebuf[e].parts| {
        BindKeepsPointers(s1, Target(s1.inbuf, Idle), e);
      }
    }
  }

  lemma BindKeepsPointers(s: Engine, i: nat, e: nat)
    requires i < |s.inbuf| && e < |s.ebuf| && 0 <= s.ebuf[e].partCnt < |s.ebuf[e].parts|
    ensures BindPart(s, i, e).ready == s.ready && BindPart(s, i, e).aggr == s.aggr
  {
  }

  lemma DispatchKeepsPointers(cfg: Setup, s: Engine)
    requires cfg.Valid()
    ensures Dispatch(cfg, s).ready == s.ready && Dispatch(cfg, s).aggr == s.aggr
  {
    hide Feed, Target;
    if Has(s.inbuf, Draining) {
      FeedPlaced(cfg, s, Target(s.inbuf, Draining));
    } else if Has(s.inbuf, Ready) {
      var p := Target(s.inbuf, Ready);
      var b := s.inbuf[p].(events := s.inbuf[p].nonEmpty * cfg.featureChunks).SwitchState(Draining);
      FeedPlaced(cfg, s.(inbuf := s.inbuf[p := b]), p);
    }
  }

  lemma StepPlaced(cfg: Setup, s: Engine, op: Op)
    requires cfg.Valid() && s.chunkCnt <= |cfg.chunks| && BothPlaced(cfg, s)
    ensures BothPlaced(cfg, Step(cfg, s, op))
  {
    hide AtPlace, StepSimds, FillInput, FillEdge, Dispatch, Target;
    if op.OpTick? && !s.failed {
      StepSimdsPlaced(cfg, s, |s.simds|);
      var s1 := StepSimds(cfg, s, |s.simds|);
      FillPlaced(cfg, s1, op.will);
      DispatchKeepsPointers(cfg, FillInput(cfg, FillEdge(cfg, s1), op.will));
    }
  }

  // On every run both pointers of the ring stand at the place of their vertex.
  lemma {:induction false} RunPlaced(cfg: Setup, numSimds: nat, ops: seq<Op>)
    requires cfg.Valid()
    ensures BothPlaced(cfg, Run(cfg, Init(cfg, numSimds), ops))
  {
    hide Step, BothPlaced;
    if ops == [] {
      StartPlaced(cfg, numSimds);
    } else {
      RunPlaced(cfg, numSimds, ops[..|ops| - 1]);
      StepPlaced(cfg, Run(cfg, Init(cfg, numSimds), ops[..|ops| - 1]), ops[|ops| - 1]);
    }
  }

  lemma StartPlaced(cfg: Setup, numSimds: nat)
    requires cfg.Valid()
    ensures BothPlaced(cfg, Init(cfg, numSimds))
  {
    assert (cfg.Start() - cfg.Start()) * cfg.sizeVector == 0;
  }

  // ------------------------------------------------------------------ the slices

  // The bytes that lie before a slice of a vertex if the ring is laid out flat.
  function Offset(cfg: Setup, vertex: int, feature: int): int { vertex * cfg.sizeVector + feature * cfg.sizeBlock }

  lemma Behind(place: int, a: int, b: int, size: int, x: int, n: int)
    requires 0 < n && place == (a * size) % n
    ensures (place + b * size + x) % n == ((a + b) * size + x) % n
  {
    ModAdd(a * size, b * size + x, n);
    Distribute(a, b, size);
  }

  lemma ReadIsOffset(cfg: Setup, ready: Pointer, vertex: int, feature: int)
    requires 0 < cfg.capacity && AtPlace(cfg, ready)
    ensures WriteAddr(cfg, ready, vertex, feature) == Offset(cfg, vertex - cfg.Start(), feature) % cfg.capacity
  {
    var a, b := ready.vertex - cfg.Start(), vertex - ready.vertex;
    assert vertex - cfg.Start() == a + b;
    Behind(ready.place, a, b, cfg.sizeVector, feature * cfg.sizeBlock, cfg.capacity);
  }

  // On every run a SIMD at work has read its running sum at the place of its slice.
  lemma ReadsItsSlice(cfg: Setup, numSimds: nat, ops: seq<Op>, i: nat)
    requires cfg.Valid() && i < |Run(cfg, Init(cfg, numSimds), ops).simds|
    requires Run(cfg, Init(cfg, numSimds), ops).simds[i].state == Computing
    ensures var d := Run(cfg, Init(cfg, numSimds), ops).simds[i];
            d.readAddr == Offset(cfg, d.vertex - cfg.Start(), d.feature) % cfg.capacity
  {
    hide Run, Init, WriteAddr, AtPlace, Offset;
    WritesWhereItRead(cfg, numSimds, ops, i);
    RunPlaced(cfg, numSimds, ops);
    var s := Run(cfg, Init(cfg, numSimds), ops);
    ReadIsOffset(cfg, s.ready, s.simds[i].vertex, s.simds[i].feature);
  }

  // Behind the place at which the aggregation pointer stood at the chunk's first
  // vertex, which is when the chunk was opened, the slices of each vertex follow one
  // another in their order, and the vertices in theirs.
  lemma BehindItsChunk(cfg: Setup, numSimds: nat, before: seq<Op>, after: seq<Op>, i: nat, c: nat)
    requires cfg.Valid() && c < |cfg.chunks| && i < |Run(cfg, Init(cfg, numSimds), after).simds|
    requires Run(cfg, Init(cfg, numSimds), after).simds[i].state == Computing
    requires Run(cfg, Init(cfg, numSimds), before).aggr.vertex == cfg.StartOf(c)
    ensures var place, d := Run(cfg, Init(cfg, numSimds), before).aggr.place, Run(cfg, Init(cfg, numSimds), after).simds[i];
            d.readAddr == (place + (d.vertex - cfg.StartOf(c)) * cfg.sizeVector + d.feature * cfg.sizeBlock) % cfg.capacity
  {
    hide Run, Init, AtPlace, Offset, Setup.Valid;
    ReadsItsSlice(cfg, numSimds, after, i);
    RunPlaced(cfg, numSimds, before);
    var d := Run(cfg, Init(cfg, numSimds), after).simds[i];
    BehindChunk(cfg, Run(cfg, Init(cfg, numSimds), before).aggr, c, d.vertex, d.feature);
  }

  lemma BehindChunk(cfg: Setup, aggr: Pointer, c: nat, vertex: int, feature: int)
    requires cfg.Valid() && c < |cfg.chunks| && AtPlace(cfg, aggr) && aggr.vertex == cfg.StartOf(c)
    ensures Offset(cfg, vertex - cfg.Start(), feature) % cfg.capacity
         == (aggr.place + (vertex - cfg.StartOf(c)) * cfg.sizeVector + feature * cfg.sizeBlock) % cfg.capacity
  {
    var a, b := cfg.StartOf(c) - cfg.Start(), vertex - cfg.StartOf(c);
    assert vertex - cfg.Start() == a + b;
    Behind(aggr.place, a, b, cfg.sizeVector, feature * cfg.sizeBlock, cfg.capacity);
  }

  // ------------------------------------------------------------------ the slices exist

  predicate Sliced(cfg: Setup, q: seq<Task>) { forall i :: 0 <= i < |q| ==> 0 <= q[i].feature < cfg.featureChunks }

  lemma {:induction false} RowSliced(cfg: Setup, vertex: int, row: seq<int>, f: nat)
    ensures Sliced(cfg, RowTasks(cfg, vertex, row, f))
    decreases cfg.featureChunks - f
  {
    if row != [] && f < cfg.featureChunks {
      RowSliced(cfg, vertex, row, f + 1);
    }
  }

  lemma {:induction false} PartSliced(cfg: Setup, start: int, rows: Rows, v: nat)
    ensures Sliced(cfg, PartTasks(cfg, start, rows, v))
    decreases |rows| - v
  {
    if v < |rows| {
      RowSliced(cfg, start + v, rows[v], 0);
      PartSliced(cfg, start, rows, v + 1);
    }
  }

  lemma {:induction false} PartsSliced(cfg: Setup, start: int, parts: seq<Rows>, p: nat)
    ensures Sliced(cfg, PartsTasks(cfg, start, parts, p))
    decreases |parts| - p
  {
    if p < |parts| {
      PartSliced(cfg, start, parts[p], 0);
      PartsSliced(cfg, start, parts, p + 1);
    }
  }

  lemma {:induction false} ChunksSliced(cfg: Setup, c: nat)
    requires cfg.Valid()
    ensures Sliced(cfg, ChunksTasks(cfg, c))
    decreases |cfg.chunks| - c
  {
    if c < |cfg.chunks| {
      PartsSliced(cfg, cfg.chunks[c].start, cfg.PartsOf(c), 0);
      ChunksSliced(cfg, c + 1);
    }
  }

  lemma {:induction false} RunsInBag(simds: seq<Simd>, i: nat)
    requires i < |simds| && simds[i].state == Computing
    ensures simds[i].Job() in Running(simds)
  {
    if i < |simds| - 1 {
      RunsInBag(simds[..|simds| - 1], i);
    }
  }

  lemma JobSliced(cfg: Setup, simds: seq<Simd>, started: seq<Task>, finished: seq<Task>, i: nat)
    requires cfg.Valid() && BagOk(simds, started, finished) && started <= ChunksTasks(cfg, 0)
    requires i < |simds| && simds[i].state == Computing
    ensures 0 <= simds[i].feature < cfg.featureChunks
  {
    ChunksSliced(cfg, 0);
    RunsInBag(simds, i);
    assert simds[i].Job() in multiset(finished) + Running(simds);
    assert simds[i].Job() in started;
    hide Running, ChunksTasks;
  }

  lemma SliceInRange(cfg: Setup, numSimds: nat, ops: seq<Op>, i: nat)
    requires cfg.Valid() && i < |Run(cfg, Init(cfg, numSimds), ops).simds|
    requires Run(cfg, Init(cfg, numSimds), ops).simds[i].state == Computing
    ensures 0 <= Run(cfg, Init(cfg, numSimds), ops).simds[i].feature < cfg.featureChunks
  {
    hide Run, Init, BagOk;
    StartedInOrder(cfg, numSimds, ops);
    RunInv(cfg, numSimds, ops);
    BagOf(cfg, Run(cfg, Init(cfg, numSimds), ops));
    var s := Run(cfg, Init(cfg, numSimds), ops);
    JobSliced(cfg, s.simds, s.started, s.finished, i);
  }

  lemma BagOf(cfg: Setup, s: Engine)
    requires cfg.Valid() && Inv(cfg, s)
    ensures BagOk(s.simds, s.started, s.finished)
  {
  }

  // ------------------------------------------------------------------ they are apart

  // Two flat offsets less than a whole ring apart fall on different places.
  lemma PlacesDiffer(a: int, b: int, n: int)
    requires 0 < n && a != b && 0 - n < a - b < n
    ensures a % n != b % n
  {
    var q := a / n - b / n;
    assert a == a / n * n + a % n && b == b / n * n + b % n;
    Distribute(a / n, -(b / n), n);
    AtLeastOnce(q, n);
    assert q == 0 ==> q * n == 0;
  }

  // Within a chunk, vertex, slice and byte are the digits of the offset.
  lemma OffsetsDiffer(cfg: Setup, v: nat, f: nat, k: nat, v': nat, f': nat, k': nat, rows: nat)
    requires v < rows && v' < rows && f < cfg.featureChunks && f' < cfg.featureChunks && k < cfg.sizeBlock && k' < cfg.sizeBlock
    requires cfg.featureChunks * cfg.sizeBlock <= cfg.sizeVector && rows * cfg.sizeVector <= cfg.capacity
    requires (v, f) != (v', f')
    ensures var a, b := Offset(cfg, v, f) + k, Offset(cfg, v', f') + k';
            a != b && 0 <= a < cfg.capacity && 0 <= b < cfg.capacity
  {
    SliceBytes(cfg, f, k);
    SliceBytes(cfg, f', k');
    InBox(cfg.sizeVector, f * cfg.sizeBlock + k, rows, v);
    InBox(cfg.sizeVector, f' * cfg.sizeBlock + k', rows, v');
    if v < v' {
      DigitLess(v, f * cfg.sizeBlock + k, v', f' * cfg.sizeBlock + k', cfg.sizeVector);
    } else if v' < v {
      DigitLess(v', f' * cfg.sizeBlock + k', v, f * cfg.sizeBlock + k, cfg.sizeVector);
    } else if f < f' {
      DigitLess(f, k, f', k', cfg.sizeBlock);
    } else {
      DigitLess(f', k', f, k, cfg.sizeBlock);
    }
  }

  lemma SliceBytes(cfg: Setup, f: nat, k: nat)
    requires f < cfg.featureChunks && k < cfg.sizeBlock && cfg.featureChunks * cfg.sizeBlock <= cfg.sizeVector
    ensures 0 <= f * cfg.sizeBlock + k < cfg.sizeVector
  {
    InBox(cfg.sizeBlock, k, cfg.featureChunks, f);
  }

  lemma DigitLess(high: nat, low: nat, high': nat, low': nat, n: nat)
    requires high < high' && low < n && 0 <= low'
    ensures high * n + low < high' * n + low'
  {
    Distribute(high, high' - high, n);
    AtLeastOnce(high' - high, n);
  }

  // The bytes of one slice's running sum and those of another's, of the same chunk,
  // have no place of the ring in common, whenever on the run the two are worked on: if
  // the slices fit a vector and the chunk's vectors fit the ring.
  lemma SlicesApart(cfg: Setup, numSimds: nat, ops: seq<Op>, i: nat, ops': seq<Op>, i': nat, c: nat, k: nat, k': nat)
    requires cfg.Valid() && c < |cfg.chunks|
    requires i < |Run(cfg, Init(cfg, numSimds), ops).simds| && i' < |Run(cfg, Init(cfg, numSimds), ops').simds|
    requires var d, d' := Run(cfg, Init(cfg, numSimds), ops).simds[i], Run(cfg, Init(cfg, numSimds), ops').simds[i'];
             && d.state == d'.state == Computing && (d.vertex, d.feature) != (d'.vertex, d'.feature)
             && 0 <= d.vertex - cfg.StartOf(c) < |cfg.chunks[c].rows| && 0 <= d'.vertex - cfg.StartOf(c) < |cfg.chunks[c].rows|
    requires cfg.featureChunks * cfg.sizeBlock <= cfg.sizeVector && |cfg.chunks[c].rows| * cfg.sizeVector <= cfg.capacity
    requires k < cfg.sizeBlock && k' < cfg.sizeBlock
    ensures var d, d' := Run(cfg, Init(cfg, numSimds), ops).simds[i], Run(cfg, Init(cfg, numSimds), ops').simds[i'];
            (d.readAddr + k) % cfg.capacity != (d'.readAddr + k') % cfg.capacity
  {
    hide Run, Init;
    var d, d' := Run(cfg, Init(cfg, numSimds), ops).simds[i], Run(cfg, Init(cfg, numSimds), ops').simds[i'];
    ReadsItsSlice(cfg, numSimds, ops, i);
    ReadsItsSlice(cfg, numSimds, ops', i');
    SliceInRange(cfg, numSimds, ops, i);
    SliceInRange(cfg, numSimds, ops', i');
    OffsetsApart(cfg, c, d, d', k, k');
  }

  lemma OffsetsApart(cfg: Setup, c: nat, d: Simd, d': Simd, k: nat, k': nat)
    requires cfg.Valid() && c < |cfg.chunks| && (d.vertex, d.feature) != (d'.vertex, d'.feature)
    requires d.readAddr == Offset(cfg, d.vertex - cfg.Start(), d.feature) % cfg.capacity
    requires d'.readAddr == Offset(cfg, d'.vertex - cfg.Start(), d'.feature) % cfg.capacity
    requires 0 <= d.vertex - cfg.StartOf(c) < |cfg.chunks[c].rows| && 0 <= d'.vertex - cfg.StartOf(c) < |cfg.chunks[c].rows|
    requires 0 <= d.feature < cfg.featureChunks && 0 <= d'.feature < cfg.featureChunks
    requires cfg.featureChunks * cfg.sizeBlock <= cfg.sizeVector && |cfg.chunks[c].rows| * cfg.sizeVector <= cfg.capacity
    requires k < cfg.sizeBlock && k' < cfg.sizeBlock
    ensures (d.readAddr + k) % cfg.capacity != (d'.readAddr + k') % cfg.capacity
  {
    var base, v, v' := cfg.StartOf(c) - cfg.Start(), d.vertex - cfg.StartOf(c), d'.vertex - cfg.StartOf(c);
    OffsetsDiffer(cfg, v, d.feature, k, v', d'.feature, k', |cfg.chunks[c].rows|);
    FromBase(cfg, base, v, d.feature);
    FromBase(cfg, base, v', d'.feature);
    assert d.vertex - cfg.Start() == base + v && d'.vertex - cfg.Start() == base + v';
    hide Offset;
    ModAdd(Offset(cfg, base + v, d.feature), k, cfg.capacity);
    ModAdd(Offset(cfg, base + v', d'.feature), k', cfg.capacity);
    PlacesDiffer(Offset(cfg, base + v, d.feature) + k, Offset(cfg, base + v', d'.feature) + k', cfg.capacity);
  }

  lemma FromBase(cfg: Setup, base: int, v: int, f: int)
    ensures Offset(cfg, base + v, f) == base * cfg.sizeVector + Offset(cfg, v, f)
  {
    Distribute(base, v, cfg.sizeVector);
  }
}
