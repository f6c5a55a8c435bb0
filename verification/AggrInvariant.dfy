// What every run of the aggregation engine keeps: which chunk and which part each
// buffer holds, how the pointers stand, and how the jobs given out, running and
// still to come make up the whole list of jobs.
module AggrInvariant {
  import opened EdgePartition
  import opened AggrSpec
  import opened AggrTasks

  // ------------------------------------------------------------ two buffers

  lemma TargetOfTwo(bufs: seq<Spm>, state: BufState)
    requires |bufs| == 2
    ensures Target(bufs, state) == if bufs[0].state == state then 0 else if bufs[1].state == state then 1 else 2
  {
    assert bufs[1..][0] == bufs[1];
  }

  function In(b: Spm, state: BufState): nat { if b.state == state then 1 else 0 }

  function CountIn(bufs: seq<Spm>, state: BufState): nat
    requires |bufs| == 2
  {
    In(bufs[0], state) + In(bufs[1], state)
  }

  function Used(bufs: seq<Spm>): int
    requires |bufs| == 2
  {
    2 - CountIn(bufs, Idle)
  }

  // ------------------------------------------------------------ edge buffers

  // The parts of a draining chunk that are done.
  function PartsDone(eb: Spm): int { |eb.parts| - eb.events }

  ghost predicate EdgeBufOk(cfg: Setup, eb: Spm, confirmed: nat, chunkCnt: nat)
    requires cfg.Valid() && chunkCnt <= |cfg.chunks|
  {
    eb.state != Idle ==>
      && confirmed <= eb.chunkId < chunkCnt
      && eb.start == cfg.chunks[eb.chunkId].start && eb.end == eb.start + |cfg.chunks[eb.chunkId].rows|
      && eb.parts == cfg.PartsOf(eb.chunkId)
      && (eb.state == Filling ==> eb.events == 1 && eb.chunkId == chunkCnt - 1)
      && (eb.state == Draining ==> eb.chunkId == confirmed && 0 <= PartsDone(eb) < |eb.parts| && PartsDone(eb) <= eb.partCnt <= |eb.parts|)
      && (eb.state != Draining ==> eb.partCnt == 0)
  }

  ghost predicate EdgesOk(cfg: Setup, ebuf: seq<Spm>, chunkCnt: nat, confirmed: nat, edgesOut: nat)
    requires cfg.Valid()
  {
    && |ebuf| == 2 && confirmed <= chunkCnt <= |cfg.chunks|
    && EdgeBufOk(cfg, ebuf[0], confirmed, chunkCnt) && EdgeBufOk(cfg, ebuf[1], confirmed, chunkCnt)
    && (ebuf[0].state != Idle && ebuf[1].state != Idle ==> ebuf[0].chunkId != ebuf[1].chunkId)
    && chunkCnt - confirmed == Used(ebuf)
    && edgesOut == CountIn(ebuf, Filling)
    && (ebuf[0].state == Idle ==> ebuf[0].partCnt == 0) && (ebuf[1].state == Idle ==> ebuf[1].partCnt == 0)
  }

  // The vertex numbers of the two pointers; Ring below adds the places.
  ghost predicate PointersOk(cfg: Setup, ebuf: seq<Spm>, aggr: int, ready: int, confirmed: nat)
    requires cfg.Valid() && confirmed <= |cfg.chunks|
  {
    && ready == cfg.StartOf(confirmed)
    && aggr == if Has(ebuf, Draining)
               then (var eb := ebuf[Target(ebuf, Draining)]; ready + eb.end - eb.start) else ready
  }

  // ----------------------------------------------------------- input buffers

  ghost predicate InputOk(cfg: Setup, eb: Spm, e: nat, b: Spm) {
    b.state != Idle ==>
      && b.ebuf == e && 0 <= PartsDone(eb) <= b.partId < eb.partCnt <= |eb.parts|
      && b.edges == eb.parts[b.partId] && b.start == eb.start && b.end == LastEnd(b.edges, eb.start, eb.end)
      && b.end <= b.start + |b.edges| && b.nonEmpty == NonEmptyRows(b.edges)
      && (b.state == Filling ==> b.events >= 0 && b.featureCnt == 0 && b.partId == eb.partCnt - 1)
      && (b.state == Ready ==> b.vertexPtr == b.start && b.featureCnt == 0)
      && (b.state == Draining ==> b.partId == PartsDone(eb) && b.start <= b.vertexPtr <= b.end && 0 <= b.featureCnt < cfg.featureChunks
                                  && (b.vertexPtr == b.end ==> b.featureCnt == 0)
                                  && (b.vertexPtr < b.end && b.edges[b.vertexPtr - b.start] == [] ==> b.featureCnt == 0))
  }

  function Outstanding(b: Spm): int { if b.state == Filling then b.events else 0 }

  // Of two parts in work, the earlier one is being drained; in the middle of a
  // tick it may be about to be.
  ghost predicate InOrder(eb: Spm, a: Spm, b: Spm, mid: bool) {
    a.state != Idle && b.state != Idle ==>
      && a.partId != b.partId
      && (|| a.state == Draining || b.state == Draining
          || (mid && a.state == Ready && b.state == Filling && a.partId == PartsDone(eb))
          || (mid && b.state == Ready && a.state == Filling && b.partId == PartsDone(eb)))
  }

  ghost predicate PairOk(cfg: Setup, eb: Spm, e: nat, a: Spm, b: Spm, mid: bool) {
    && InputOk(cfg, eb, e, a) && InputOk(cfg, eb, e, b)
    && 2 - In(a, Idle) - In(b, Idle) == eb.partCnt - PartsDone(eb)
    && InOrder(eb, a, b, mid)
  }

  predicate RestOk(b: Spm) { b.state == Idle ==> b.nonEmpty == 0 && b.featureCnt == 0 }

  // A part that is alone and ready starts draining before the tick ends.
  ghost predicate InputsOk(cfg: Setup, ebuf: seq<Spm>, inbuf: seq<Spm>, inputsOut: nat, mid: bool) {
    && |ebuf| == 2 && |inbuf| == 2
    && inputsOut == Outstanding(inbuf[0]) + Outstanding(inbuf[1])
    && RestOk(inbuf[0]) && RestOk(inbuf[1])
    && if Has(ebuf, Draining) then
         PairOk(cfg, ebuf[Target(ebuf, Draining)], Target(ebuf, Draining), inbuf[0], inbuf[1], mid)
       else inbuf[0].state == Idle && inbuf[1].state == Idle
  }

  lemma PairTurned(cfg: Setup, eb: Spm, e: nat, a: Spm, b: Spm, mid: bool)
    requires PairOk(cfg, eb, e, a, b, mid)
    ensures PairOk(cfg, eb, e, b, a, mid)
  {
  }

  // Only one input buffer drains, and it holds the chunk's current part.
  lemma DrainingInput(cfg: Setup, ebuf: seq<Spm>, inbuf: seq<Spm>, inputsOut: nat, mid: bool, p: nat)
    requires InputsOk(cfg, ebuf, inbuf, inputsOut, mid) && p < 2 && inbuf[p].state == Draining
    ensures Target(inbuf, Draining) == p && inbuf[1 - p].state != Draining && Has(ebuf, Draining)
    ensures var e := Target(ebuf, Draining);
            && PairOk(cfg, ebuf[e], e, inbuf[p], inbuf[1 - p], mid)
            && InputOk(cfg, ebuf[e], e, inbuf[p])
  {
    TargetOfTwo(inbuf, Draining);
    if p == 1 {
      PairTurned(cfg, ebuf[Target(ebuf, Draining)], Target(ebuf, Draining), inbuf[0], inbuf[1], mid);
    }
  }

  // Putting one input buffer back in its place.
  lemma InputsFromPair(cfg: Setup, ebuf: seq<Spm>, inbuf: seq<Spm>, inputsOut: nat, mid: bool, p: nat, a: Spm)
    requires |ebuf| == 2 && |inbuf| == 2 && p < 2 && Has(ebuf, Draining)
    requires PairOk(cfg, ebuf[Target(ebuf, Draining)], Target(ebuf, Draining), a, inbuf[1 - p], mid)
    requires inputsOut == Outstanding(a) + Outstanding(inbuf[1 - p]) && RestOk(a) && RestOk(inbuf[1 - p])
    ensures InputsOk(cfg, ebuf, inbuf[p := a], inputsOut, mid)
  {
    if p == 1 {
      PairTurned(cfg, ebuf[Target(ebuf, Draining)], Target(ebuf, Draining), a, inbuf[0], mid);
    }
  }

  // ------------------------------------------------------------------- SIMDs

  predicate SimdOk(cfg: Setup, ready: int, inbuf: seq<Spm>, d: Simd) {
    && d.state != Done
    && (d.state == Computing ==>
          && 0 <= d.inbuf < |inbuf| && inbuf[d.inbuf].state == Draining
          && 0 < d.depth <= |d.row| && d.width == cfg.width && d.vertex >= ready)
  }

  predicate SimdsOk(cfg: Setup, ready: int, inbuf: seq<Spm>, simds: seq<Simd>) {
    forall i :: 0 <= i < |simds| ==> SimdOk(cfg, ready, inbuf, simds[i])
  }

  function Working(d: Simd): nat { if d.state == Computing then 1 else 0 }

  function JobOf(d: Simd): multiset<Task> { if d.state == Computing then multiset{d.Job()} else multiset{} }

  function LeftOf(d: Simd): nat { if d.state == Computing && d.depth > 0 then d.depth else 0 }

  function Busy(simds: seq<Simd>): nat {
    if simds == [] then 0 else Busy(simds[..|simds| - 1]) + Working(simds[|simds| - 1])
  }

  function Running(simds: seq<Simd>): multiset<Task> {
    if simds == [] then multiset{} else Running(simds[..|simds| - 1]) + JobOf(simds[|simds| - 1])
  }

  function Left(simds: seq<Simd>): nat {
    if simds == [] then 0 else Left(simds[..|simds| - 1]) + LeftOf(simds[|simds| - 1])
  }

  function Macs(simds: seq<Simd>): nat {
    if simds == [] then 0 else Macs(simds[..|simds| - 1]) + simds[|simds| - 1].macs
  }

  lemma {:induction false} BusyReplaced(simds: seq<Simd>, k: nat, d: Simd)
    requires k < |simds|
    ensures Busy(simds[k := d]) + Working(simds[k]) == Busy(simds) + Working(d)
  {
    var n := |simds| - 1;
    if k < n {
      assert simds[k := d][..n] == simds[..n][k := d];
      BusyReplaced(simds[..n], k, d);
    } else {
      assert simds[k := d][..n] == simds[..n];
    }
  }

  lemma {:induction false} LeftReplaced(simds: seq<Simd>, k: nat, d: Simd)
    requires k < |simds|
    ensures Left(simds[k := d]) + LeftOf(simds[k]) == Left(simds) + LeftOf(d)
  {
    var n := |simds| - 1;
    if k < n {
      assert simds[k := d][..n] == simds[..n][k := d];
      LeftReplaced(simds[..n], k, d);
    } else {
      assert simds[k := d][..n] == simds[..n];
    }
  }

  lemma {:induction false} MacsReplaced(simds: seq<Simd>, k: nat, d: Simd)
    requires k < |simds|
    ensures Macs(simds[k := d]) + simds[k].macs == Macs(simds) + d.macs
  {
    var n := |simds| - 1;
    if k < n {
      assert simds[k := d][..n] == simds[..n][k := d];
      MacsReplaced(simds[..n], k, d);
    } else {
      assert simds[k := d][..n] == simds[..n];
    }
  }

  lemma Reorder(a: multiset<Task>, a': multiset<Task>, x: multiset<Task>, y: multiset<Task>, z: multiset<Task>)
    requires a' + x == a + y
    ensures (a' + z) + x == (a + z) + y
  {
    assert (a' + z) + x == (a' + x) + z;
    assert (a + z) + y == (a + y) + z;
  }

  lemma {:induction false} RunningReplaced(simds: seq<Simd>, k: nat, d: Simd)
    requires k < |simds|
    ensures Running(simds[k := d]) + JobOf(simds[k]) == Running(simds) + JobOf(d)
  {
    hide *;
    var n := |simds| - 1;
    RunningUnfold(simds);
    RunningUnfold(simds[k := d]);
    if k < n {
      assert simds[k := d][..n] == simds[..n][k := d];
      RunningReplaced(simds[..n], k, d);
      Reorder(Running(simds[..n]), Running(simds[k := d][..n]), JobOf(simds[k]), JobOf(d), JobOf(simds[n]));
    } else {
      assert simds[k := d][..n] == simds[..n];
      SwapJobs(Running(simds[..n]), JobOf(d), JobOf(simds[n]));
    }
  }

  lemma RunningUnfold(simds: seq<Simd>)
    requires simds != []
    ensures Running(simds) == Running(simds[..|simds| - 1]) + JobOf(simds[|simds| - 1])
  {
  }

  lemma SwapJobs(a: multiset<Task>, b: multiset<Task>, c: multiset<Task>)
    ensures (a + b) + c == (a + c) + b
  {
  }

  lemma {:induction false} NoneBusy(simds: seq<Simd>)
    requires Busy(simds) == 0
    ensures Running(simds) == multiset{} && Left(simds) == 0
    ensures forall i :: 0 <= i < |simds| ==> simds[i].state != Computing
  {
    if simds != [] {
      NoneBusy(simds[..|simds| - 1]);
    }
  }

  lemma {:induction false} BusyOne(simds: seq<Simd>, i: nat)
    requires i < |simds| && simds[i].state == Computing
    ensures Busy(simds) > 0
  {
    if i < |simds| - 1 {
      BusyOne(simds[..|simds| - 1], i);
    }
  }

  // ----------------------------------------------------------- the list of jobs

  // What a draining input buffer has not given out yet.
  function Remaining(cfg: Setup, b: Spm): seq<Task> {
    var v := b.vertexPtr - b.start;
    if 0 <= v < |b.edges| && 0 <= b.featureCnt
    then RowTasks(cfg, b.vertexPtr, b.edges[v], b.featureCnt) + PartTasks(cfg, b.start, b.edges, v + 1)
    else []
  }

  function CurrentPart(cfg: Setup, eb: Spm, inbuf: seq<Spm>): seq<Task> {
    if Has(inbuf, Draining) then Remaining(cfg, inbuf[Target(inbuf, Draining)])
    else if 0 <= PartsDone(eb) < |eb.parts| then PartTasks(cfg, eb.start, eb.parts[PartsDone(eb)], 0)
    else []
  }

  // What is still to come of the draining chunk.
  function RestOfChunk(cfg: Setup, eb: Spm, inbuf: seq<Spm>): seq<Task> {
    CurrentPart(cfg, eb, inbuf) + (if PartsDone(eb) < 0 then [] else PartsTasks(cfg, eb.start, eb.parts, PartsDone(eb) + 1))
  }

  ghost function ToDo(cfg: Setup, ebuf: seq<Spm>, inbuf: seq<Spm>, confirmed: nat): seq<Task>
    requires cfg.Valid()
  {
    if Has(ebuf, Draining)
    then RestOfChunk(cfg, ebuf[Target(ebuf, Draining)], inbuf) + ChunksTasks(cfg, confirmed + 1)
    else ChunksTasks(cfg, confirmed)
  }

  predicate EventsOk(cfg: Setup, inbuf: seq<Spm>, simds: seq<Simd>) {
    if Has(inbuf, Draining)
    then inbuf[Target(inbuf, Draining)].events == |Remaining(cfg, inbuf[Target(inbuf, Draining)])| + Busy(simds)
    else Busy(simds) == 0
  }

  // The operations so far are those of the jobs given out, less what runs.
  predicate MacsOk(cfg: Setup, simds: seq<Simd>, started: seq<Task>) {
    Left(simds) <= Depth(started) && Macs(simds) == (Depth(started) - Left(simds)) * cfg.width
  }

  predicate BagOk(simds: seq<Simd>, started: seq<Task>, finished: seq<Task>) {
    multiset(finished) + Running(simds) == multiset(started)
  }

  // All but the order of the jobs.
  ghost predicate Core(cfg: Setup, s: Engine, mid: bool)
    requires cfg.Valid()
  {
    && !s.failed && s.eventIn <= s.eventOut
    && EdgesOk(cfg, s.ebuf, s.chunkCnt, s.confirmed, s.edgesOut)
    && PointersOk(cfg, s.ebuf, s.aggr.vertex, s.ready.vertex, s.confirmed)
    && InputsOk(cfg, s.ebuf, s.inbuf, s.inputsOut, mid)
    && SimdsOk(cfg, s.ready.vertex, s.inbuf, s.simds)
    && EventsOk(cfg, s.inbuf, s.simds)
    && BagOk(s.simds, s.started, s.finished)
    && MacsOk(cfg, s.simds, s.started)
  }

  // The jobs given out so far and those still to come are all jobs, in order.
  ghost predicate Order(cfg: Setup, s: Engine)
    requires cfg.Valid()
  {
    s.started + ToDo(cfg, s.ebuf, s.inbuf, s.confirmed) == ChunksTasks(cfg, 0)
  }

  ghost predicate SameToDo(cfg: Setup, s: Engine, s': Engine)
    requires cfg.Valid()
  {
    s'.started == s.started && ToDo(cfg, s'.ebuf, s'.inbuf, s'.confirmed) == ToDo(cfg, s.ebuf, s.inbuf, s.confirmed)
  }
}
