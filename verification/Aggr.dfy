// The aggregation engine with its loops (hygcn/dataflow/aggr.cpp), proved
// against AggrSpec. Buffers and SIMDs are values held by the engine.
module AggrClass {
  import opened EdgePartition
  import opened AggrSpec
  import opened AggrTasks
  import opened AggrInvariant
  import opened AggrParts
  import opened AggrFeed
  import opened AggrTheorems

  lemma {:induction false} TargetAt(bufs: seq<Spm>, state: BufState, i: nat)
    requires i <= |bufs| && (i < |bufs| ==> bufs[i].state == state) && forall j :: 0 <= j < i ==> bufs[j].state != state
    ensures Target(bufs, state) == i
  {
    if i > 0 {
      TargetAt(bufs[1..], state, i - 1);
    }
  }

  // -1 if there is none.
  method GetTargetBuf(bufs: seq<Spm>, state: BufState) returns (i: int)
    ensures i == if Has(bufs, state) then Target(bufs, state) else -1
  {
    for k := 0 to |bufs|
      invariant forall j :: 0 <= j < k ==> bufs[j].state != state
    {
      if bufs[k].state == state {
        TargetAt(bufs, state, k);
        return k;
      }
    }
    TargetAt(bufs, state, |bufs|);
    return -1;
  }

  method AllBufIdle(bufs: seq<Spm>) returns (idle: bool)
    ensures idle == AllIdle(bufs)
  {
    idle := true;
    for k := 0 to |bufs|
      invariant idle && forall j :: 0 <= j < k ==> bufs[j].state == Idle
    {
      if bufs[k].state != Idle {
        idle := false;
        break;
      }
    }
  }

  lemma {:induction false} FreeSimdAt(simds: seq<Simd>, i: nat)
    requires i <= |simds| && (i < |simds| ==> simds[i].state == Free) && forall j :: 0 <= j < i ==> simds[j].state != Free
    ensures FreeSimd(simds) == i
  {
    if i > 0 {
      FreeSimdAt(simds[1..], i - 1);
    }
  }

  // The number of buffers if none is ready; the first of those with the smallest start.
  function FirstReadyOf(bufs: seq<Spm>): int {
    if Has(bufs, Ready) then FirstReadyChunk(bufs) else -1
  }

  lemma FirstReadyPush(bufs: seq<Spm>, n: nat)
    requires n < |bufs|
    ensures Has(bufs[..n + 1], Ready) <==> Has(bufs[..n], Ready) || bufs[n].state == Ready
    ensures var i := FirstReadyOf(bufs[..n]);
            FirstReadyOf(bufs[..n + 1]) ==
              if bufs[n].state == Ready && (i == -1 || bufs[i].start > bufs[n].start) then n else i
  {
    var more := bufs[..n + 1];
    assert more[..n] == bufs[..n];
    TargetIsIn(more, Ready);
    TargetIsIn(bufs[..n], Ready);
    if bufs[n].state == Ready {
      assert more[n].state == Ready;
    }
  }

  // Every event that is still out is awaited by a buffer.
  lemma ReturnsAwaited(cfg: Setup, s: Engine)
    requires cfg.Valid() && Inv(cfg, s)
    ensures s.edgesOut > 0 ==> Has(s.ebuf, Filling)
    ensures s.inputsOut > 0 ==> Has(s.inbuf, Filling)
  {
    TargetOfTwo(s.ebuf, Filling);
    TargetOfTwo(s.inbuf, Filling);
  }

  // One round of the feeding loop.
  lemma FeedOnce(cfg: Setup, s: Engine, p: nat)
    requires cfg.Valid() && p < |s.inbuf| && !s.failed
    ensures var k := FreeSimd(s.simds);
            var b := s.inbuf[p];
            if k == |s.simds| || b.vertexPtr >= b.end then Feed(cfg, s, p) == s
            else if !(0 <= b.vertexPtr - b.start < |b.edges|) then Feed(cfg, s, p) == s.(failed := true)
            else if b.edges[b.vertexPtr - b.start] == [] then
              Feed(cfg, s, p) == Feed(cfg, s.(inbuf := s.inbuf[p := b.(vertexPtr := b.vertexPtr + 1)]), p)
            else
              var s1 := Assign(cfg, s, p, k);
              |s1.inbuf| == |s.inbuf| && Feed(cfg, s, p) == if s1.failed then s1 else Feed(cfg, s1, p)
  {
  }

  lemma FeedSkips(cfg: Setup, s: Engine, p: nat)
    requires cfg.Valid() && p < |s.inbuf| && !s.failed && FreeSimd(s.simds) < |s.simds|
    requires s.inbuf[p].vertexPtr < s.inbuf[p].end && 0 <= s.inbuf[p].vertexPtr - s.inbuf[p].start < |s.inbuf[p].edges|
    requires s.inbuf[p].edges[s.inbuf[p].vertexPtr - s.inbuf[p].start] == []
    ensures Feed(cfg, s, p) == Feed(cfg, s.(inbuf := s.inbuf[p := s.inbuf[p].(vertexPtr := s.inbuf[p].vertexPtr + 1)]), p)
  {
    FeedOnce(cfg, s, p);
  }

  lemma FeedGives(cfg: Setup, s: Engine, p: nat, k: nat)
    requires cfg.Valid() && p < |s.inbuf| && !s.failed && k == FreeSimd(s.simds) && k < |s.simds|
    requires s.inbuf[p].vertexPtr < s.inbuf[p].end && 0 <= s.inbuf[p].vertexPtr - s.inbuf[p].start < |s.inbuf[p].edges|
    requires s.inbuf[p].edges[s.inbuf[p].vertexPtr - s.inbuf[p].start] != []
    ensures var s1 := Assign(cfg, s, p, k);
            |s1.inbuf| == |s.inbuf| && Feed(cfg, s, p) == if s1.failed then s1 else Feed(cfg, s1, p)
  {
    FeedOnce(cfg, s, p);
  }

  lemma FreeIsFree(s: Engine, k: nat)
    requires k == FreeSimd(s.simds) && k < |s.simds|
    ensures s.simds[k].state == Free
  {
  }

  lemma StepSimdsNext(cfg: Setup, s: Engine, i: nat)
    requires cfg.Valid() && i < |s.simds|
    ensures var s1 := StepSimds(cfg, s, i);
            StepSimds(cfg, s, i + 1) == if s1.failed then s1 else StepSimd(cfg, s1, i)
  {
  }

  class Aggr {
    const cfg: Setup
    var ebuf: seq<Spm>
    var inbuf: seq<Spm>
    var simds: seq<Simd>
    var edgeChunkCnt: nat
    var isDone: bool
    var eventOut: nat
    var eventIn: nat
    // The two pointers of the aggregation buffer that the engine moves.
    var aggrPtr: Pointer
    var readyPtr: Pointer
    // Memory events that have been asked for and have not come back.
    var edgesOut: nat
    var inputsOut: nat
    // Where an assertion of the source does not hold.
    var failed: bool
    // What has happened so far; not in the source.
    var started: seq<Task>
    var finished: seq<Task>
    var confirmed: nat

    ghost function View(): Engine
      reads this
    {
      Engine(failed, ebuf, inbuf, simds, edgeChunkCnt, isDone, eventOut, eventIn, aggrPtr, readyPtr, edgesOut, inputsOut,
             started, finished, confirmed)
    }

    ghost predicate Valid()
      reads this
    {
      cfg.Valid() && edgeChunkCnt <= |cfg.chunks| && Inv(cfg, View())
    }

    constructor (cfg: Setup, numSimds: nat)
      requires cfg.Valid()
      ensures this.cfg == cfg && View() == Init(cfg, numSimds) && Valid()
    {
      this.cfg := cfg;
      ebuf, inbuf := [FreshSpm, FreshSpm], [FreshSpm, FreshSpm];
      simds := seq(numSimds, _ => Simd(Free, 0, 0, -1, -1, -1, 0, [], 0));
      edgeChunkCnt, isDone, eventOut, eventIn := 0, false, 0, 0;
      aggrPtr, readyPtr := Pointer(cfg.Start(), 0), Pointer(cfg.Start(), 0);
      edgesOut, inputsOut, failed := 0, 0, false;
      started, finished, confirmed := [], [], 0;
      new;
      InitInv(cfg, numSimds);
    }

    // ------------------------------------------------------------- ClockTick

    method ClockTick(willAllocate: bool)
      requires Valid()
      modifies this
      ensures View() == Tick(cfg, old(View()), willAllocate) && Valid()
    {
      TickKeeps(cfg, View(), willAllocate);
      TickSimds();
      if failed {
        return;
      }
      GenDataFlow(willAllocate);
      if failed {
        return;
      }
      var inIdle := AllBufIdle(inbuf);
      var edgeIdle := AllBufIdle(ebuf);
      if inIdle && edgeIdle && eventOut == eventIn {
        if !isDone {
          isDone := true;
        }
      }
    }

    method TickSimds()
      requires cfg.Valid() && !failed
      modifies `ebuf, `inbuf, `simds, `eventOut, `readyPtr, `failed, `finished, `confirmed
      ensures View() == StepSimds(cfg, old(View()), |old(simds)|)
    {
      ghost var was := View();
      var n := |simds|;
      for i := 0 to n
        invariant |simds| == n && View() == StepSimds(cfg, was, i)
      {
        StepSimdsNext(cfg, was, i);
        if !failed {
          TickSimd(i);
        }
      }
      StepSimdsUnfold(cfg, was, 0);
    }

    method TickSimd(i: nat)
      requires cfg.Valid() && i < |simds|
      modifies `ebuf, `inbuf, `simds, `eventOut, `readyPtr, `failed, `finished, `confirmed
      ensures View() == StepSimd(cfg, old(View()), i)
    {
      simds := simds[i := simds[i].ClockTick()];
      if simds[i].state == Done {
        WriteBack(i);
      }
    }

    method WriteBack(i: nat)
      requires cfg.Valid() && i < |simds|
      modifies `ebuf, `inbuf, `simds, `eventOut, `readyPtr, `failed, `finished, `confirmed
      ensures View() == AggrSpec.WriteBack(cfg, old(View()), i)
    {
      hide ConfirmPart, Setup.Valid;
      var simd := simds[i];
      if !(0 <= simd.inbuf < |inbuf| && inbuf[simd.inbuf].state == Draining && simd.vertex >= readyPtr.vertex) {
        failed := true;
        return;
      }
      eventOut := eventOut + 1;
      finished := finished + [simd.Job()];
      simds := simds[i := simd.Release()];
      ConfirmJob(simd.inbuf);
    }

    // One job of an input buffer is done.
    method ConfirmJob(p: nat)
      requires cfg.Valid() && p < |inbuf|
      modifies `ebuf, `inbuf, `readyPtr, `failed, `confirmed
      ensures View() == var s := old(View());
                        var ib := s.inbuf[p].(events := s.inbuf[p].events - 1);
                        if ib.events != 0 then s.(inbuf := s.inbuf[p := ib])
                        else ConfirmPart(cfg, s.(inbuf := s.inbuf[p := ib.SwitchState(Idle)]), ib.ebuf)
    {
      hide ConfirmPart, Setup.Valid;
      var ibuf := inbuf[p].(events := inbuf[p].events - 1);
      if ibuf.events != 0 {
        inbuf := inbuf[p := ibuf];
        return;
      }
      inbuf := inbuf[p := ibuf.SwitchState(Idle)];
      ConfirmEdgePart(ibuf.ebuf);
    }

    method ConfirmEdgePart(bindEbuf: int)
      requires cfg.Valid()
      modifies `ebuf, `readyPtr, `failed, `confirmed
      ensures View() == ConfirmPart(cfg, old(View()), bindEbuf)
    {
      if !(0 <= bindEbuf < |ebuf|) {
        failed := true;
        return;
      }
      var buf := ebuf[bindEbuf].(events := ebuf[bindEbuf].events - 1);
      if buf.events == 0 {
        if buf.state != Draining {
          failed := true;
          return;
        }
        readyPtr := Advance(cfg, readyPtr, buf.end - buf.start);
        confirmed := confirmed + 1;
        buf := buf.SwitchState(Idle);
      }
      ebuf := ebuf[bindEbuf := buf];
    }

    // ------------------------------------------------------------ GenDataFlow

    method GenDataFlow(willAllocate: bool)
      requires cfg.Valid() && edgeChunkCnt <= |cfg.chunks|
      modifies this
      ensures View() == AggrSpec.GenDataFlow(cfg, old(View()), willAllocate)
    {
      if isDone {
        return;
      }
      FillEdgeBuffer();
      FillInputBuffer(willAllocate);
      if failed {
        return;
      }
      DispatchJobs();
    }

    method FillEdgeBuffer()
      requires cfg.Valid() && edgeChunkCnt <= |cfg.chunks|
      modifies `ebuf, `edgeChunkCnt, `edgesOut
      ensures View() == FillEdge(cfg, old(View()))
    {
      if edgeChunkCnt != |cfg.chunks| {
        var idle := GetTargetBuf(ebuf, Idle);
        var filling := GetTargetBuf(ebuf, Filling);
        if idle != -1 && filling == -1 {
          var buf := ebuf[idle].SwitchState(Filling).(events := 1);
          edgesOut := edgesOut + 1;
          var chunk := cfg.chunks[edgeChunkCnt];
          assert cfg.ChunkOk(edgeChunkCnt);
          var parts := Partition(chunk.rows, cfg.numVertex, cfg.interval);
          ebuf := ebuf[idle := buf.(chunkId := edgeChunkCnt, start := chunk.start, end := chunk.start + |chunk.rows|, parts := parts)];
          edgeChunkCnt := edgeChunkCnt + 1;
        }
      }
    }

    // The ready buffer with the smallest start vertex.
    method SmallestReady() returns (ready: int)
      ensures ready == FirstReadyOf(ebuf)
    {
      ready := -1;
      for i := 0 to |ebuf|
        invariant ready == FirstReadyOf(ebuf[..i])
      {
        FirstReadyPush(ebuf, i);
        if ebuf[i].state == Ready && (ready == -1 || ebuf[ready].start > ebuf[i].start) {
          ready := i;
        }
      }
      assert ebuf[..|ebuf|] == ebuf;
    }

    method FillInputBuffer(willAllocate: bool)
      requires cfg.Valid()
      modifies `ebuf, `inbuf, `aggrPtr, `inputsOut, `failed
      ensures View() == FillInput(cfg, old(View()), willAllocate)
    {
      hide BindPart, OpenChunk, FirstReadyChunk, Target;
      var idle := GetTargetBuf(inbuf, Idle);
      var filling := GetTargetBuf(inbuf, Filling);
      var draining := GetTargetBuf(ebuf, Draining);
      if idle == -1 || filling != -1 {
        return;
      }
      if draining != -1 {
        if 0 <= ebuf[draining].partCnt < |ebuf[draining].parts| {
          BindEdgePart(idle, draining);
        }
        return;
      }
      var ready := SmallestReady();
      if ready != -1 && willAllocate {
        if !(0 <= ebuf[ready].partCnt < |ebuf[ready].parts|) {
          failed := true;
          return;
        }
        StartChunk(ready);
        BindEdgePart(idle, ready);
      }
    }

    method StartChunk(ready: nat)
      requires cfg.Valid() && ready < |ebuf|
      modifies `ebuf, `aggrPtr
      ensures View() == OpenChunk(cfg, old(View()), ready)
      ensures |ebuf| == |old(ebuf)| && ebuf[ready].partCnt == old(ebuf)[ready].partCnt && ebuf[ready].parts == old(ebuf)[ready].parts
    {
      var buf := ebuf[ready];
      ebuf := ebuf[ready := buf.SwitchState(Draining).(events := |buf.parts|)];
      aggrPtr := Advance(cfg, aggrPtr, buf.end - buf.start);
    }

    method ScanRows(part: Rows, start: int, end: int) returns (last: int, nonEmpty: nat)
      ensures last == LastEnd(part, start, end) && nonEmpty == NonEmptyRows(part)
    {
      last, nonEmpty := end, 0;
      for i := 0 to |part|
        invariant last == LastEnd(part[..i], start, end) && nonEmpty == NonEmptyRows(part[..i])
      {
        assert part[..i + 1][..i] == part[..i];
        if part[i] != [] {
          last := i + start + 1;
          nonEmpty := nonEmpty + 1;
        }
      }
      assert part[..|part|] == part;
    }

    method BindEdgePart(idle: nat, bind: nat)
      requires idle < |inbuf| && bind < |ebuf| && 0 <= ebuf[bind].partCnt < |ebuf[bind].parts|
      modifies `ebuf, `inbuf, `inputsOut
      ensures View() == BindPart(old(View()), idle, bind)
    {
      var eb := ebuf[bind];
      var part := eb.parts[eb.partCnt];
      var last, nonEmpty := ScanRows(part, eb.start, eb.end);
      var neighbors := SparsityElimination(part);
      inbuf := inbuf[idle := inbuf[idle].SwitchState(Filling).(events := |neighbors|, start := eb.start, end := last,
                                                               edges := part, ebuf := bind,
                                                               nonEmpty := inbuf[idle].nonEmpty + nonEmpty, partId := eb.partCnt)];
      ebuf := ebuf[bind := eb.(partCnt := eb.partCnt + 1)];
      inputsOut := inputsOut + |neighbors|;
    }

    method GetIdleSIMD() returns (i: nat)
      ensures i == FreeSimd(simds)
    {
      i := 0;
      while i < |simds| && simds[i].state != Free
        invariant i <= |simds| && forall j :: 0 <= j < i ==> simds[j].state != Free
      {
        i := i + 1;
      }
      FreeSimdAt(simds, i);
    }

    method DispatchJobs()
      requires cfg.Valid()
      modifies `inbuf, `simds, `eventOut, `started, `failed
      ensures !old(failed) ==> View() == Dispatch(cfg, old(View()))
    {
      var ready := GetTargetBuf(inbuf, Ready);
      var draining := GetTargetBuf(inbuf, Draining);
      if draining != -1 {
        FeedSimds(draining);
      } else if ready != -1 {
        var buf := inbuf[ready].(events := inbuf[ready].nonEmpty * cfg.featureChunks);
        inbuf := inbuf[ready := buf.SwitchState(Draining)];
        FeedSimds(ready);
      }
    }

    method FeedSimds(ptr: nat)
      requires cfg.Valid() && ptr < |inbuf|
      modifies `inbuf, `simds, `eventOut, `started, `failed
      ensures !old(failed) ==> View() == Feed(cfg, old(View()), ptr)
    {
      ghost var all := Feed(cfg, View(), ptr);
      var more := !failed;
      hide *;
      while more
        invariant ptr < |inbuf| && (more ==> !failed && all == Feed(cfg, View(), ptr))
        invariant !more && !old(failed) ==> View() == all
        decreases more, inbuf[ptr].end - inbuf[ptr].vertexPtr, FreeCount(simds)
      {
        more := FeedRound(ptr);
      }
    }

    // One round: skip an empty row, give out a job, or stop.
    method FeedRound(ptr: nat) returns (more: bool)
      requires cfg.Valid() && ptr < |inbuf| && !failed
      modifies `inbuf, `simds, `eventOut, `started, `failed
      ensures ptr < |inbuf|
      ensures more ==> !failed && Feed(cfg, View(), ptr) == Feed(cfg, old(View()), ptr)
      ensures more ==> inbuf[ptr].end == old(inbuf)[ptr].end && old(inbuf)[ptr].vertexPtr < inbuf[ptr].end
      ensures more ==> || inbuf[ptr].vertexPtr > old(inbuf)[ptr].vertexPtr
                       || (inbuf[ptr].vertexPtr == old(inbuf)[ptr].vertexPtr && FreeCount(simds) < old(FreeCount(simds)))
      ensures !more ==> View() == Feed(cfg, old(View()), ptr)
    {
      FeedOnce(cfg, View(), ptr);
      hide Feed, Assign, Setup.Valid, FreeCount, FreeSimd;
      var k := GetIdleSIMD();
      var buf := inbuf[ptr];
      if k == |simds| || buf.vertexPtr >= buf.end {
        return false;
      }
      if !(0 <= buf.vertexPtr - buf.start < |buf.edges|) {
        failed := true;
        return false;
      }
      more := FeedRow(ptr, k);
    }

    // Skip an empty row, or give its next slice to an idle SIMD.
    method FeedRow(ptr: nat, k: nat) returns (more: bool)
      requires cfg.Valid() && ptr < |inbuf| && !failed && k < |simds| && k == FreeSimd(simds)
      requires inbuf[ptr].vertexPtr < inbuf[ptr].end && 0 <= inbuf[ptr].vertexPtr - inbuf[ptr].start < |inbuf[ptr].edges|
      modifies `inbuf, `simds, `eventOut, `started, `failed
      ensures ptr < |inbuf|
      ensures if more then !failed && Feed(cfg, View(), ptr) == Feed(cfg, old(View()), ptr) else View() == Feed(cfg, old(View()), ptr)
      ensures more ==> inbuf[ptr].end == old(inbuf)[ptr].end
      ensures more ==> || inbuf[ptr].vertexPtr > old(inbuf)[ptr].vertexPtr
                       || (inbuf[ptr].vertexPtr == old(inbuf)[ptr].vertexPtr && FreeCount(simds) < old(FreeCount(simds)))
    {
      hide Feed, Assign, Setup.Valid, FreeCount, FreeSimd;
      var buf := inbuf[ptr];
      if buf.edges[buf.vertexPtr - buf.start] == [] {
        FeedSkips(cfg, View(), ptr);
        inbuf := inbuf[ptr := buf.(vertexPtr := buf.vertexPtr + 1)];
        return true;
      }
      FreeIsFree(View(), k);
      FeedDecreases(cfg, View(), ptr, k);
      FeedGives(cfg, View(), ptr, k);
      AssignTask(ptr, k);
      return !failed;
    }

    method AssignTask(ptr: nat, k: nat)
      requires cfg.Valid() && ptr < |inbuf| && k < |simds|
      requires 0 <= inbuf[ptr].vertexPtr - inbuf[ptr].start < |inbuf[ptr].edges|
      modifies `inbuf, `simds, `eventOut, `started, `failed
      ensures View() == Assign(cfg, old(View()), ptr, k)
    {
      var buf := inbuf[ptr];
      var row := buf.edges[buf.vertexPtr - buf.start];
      if buf.vertexPtr < readyPtr.vertex {
        failed := true;
        return;
      }
      var addr := WriteAddr(cfg, readyPtr, buf.vertexPtr, buf.featureCnt);
      simds := simds[k := simds[k].(state := Computing, depth := |row|, width := cfg.width, vertex := buf.vertexPtr,
                                    feature := buf.featureCnt, inbuf := ptr, row := row, readAddr := addr)];
      started := started + [Task(buf.vertexPtr, buf.featureCnt, row)];
      eventOut := eventOut + 1;
      buf := buf.(featureCnt := buf.featureCnt + 1);
      if buf.featureCnt == cfg.featureChunks {
        buf := buf.(featureCnt := 0, vertexPtr := buf.vertexPtr + 1);
      }
      inbuf := inbuf[ptr := buf];
    }

    // ------------------------------------------------------ HandleReturnEvent

    method EdgeReturned()
      requires edgesOut > 0 && Has(ebuf, Filling)
      modifies `ebuf, `edgesOut
      ensures View() == ReturnEdge(old(View()))
    {
      var i := GetTargetBuf(ebuf, Filling);
      var buf := ebuf[i].(events := ebuf[i].events - 1);
      ebuf := ebuf[i := if buf.events == 0 then buf.SwitchState(Ready) else buf];
      edgesOut := edgesOut - 1;
    }

    method InputReturned()
      requires inputsOut > 0 && Has(inbuf, Filling)
      modifies `inbuf, `inputsOut
      ensures View() == ReturnInput(old(View()))
    {
      var i := GetTargetBuf(inbuf, Filling);
      var buf := inbuf[i].(events := inbuf[i].events - 1);
      inbuf := inbuf[i := if buf.events == 0 then buf.SwitchState(Ready) else buf];
      inputsOut := inputsOut - 1;
    }

    // One returned memory event: edges of a chunk, a source's features, or the
    // aggregation buffer's acknowledgement.
    method HandleReturnEvent(op: Op)
      requires Valid() && !op.OpTick?
      requires op.OpEdge? ==> edgesOut > 0
      requires op.OpInput? ==> inputsOut > 0
      requires op.OpAggr? ==> eventIn < eventOut
      modifies this
      ensures View() == Step(cfg, old(View()), op) && Valid()
    {
      StepKeeps(cfg, View(), op);
      InvParts(cfg, View());
      StepIs(cfg, View(), op);
      ReturnsAwaited(cfg, View());
      hide *;
      match op {
        case OpEdge => EdgeReturned();
        case OpInput => InputReturned();
        case OpAggr => eventIn := eventIn + 1;
      }
      StillValid();
    }

    // Nothing but Valid's own definition.
    lemma StillValid()
      requires cfg.Valid() && Inv(cfg, View())
      ensures Valid()
    {
      InvParts(cfg, View());
    }
  }
}
