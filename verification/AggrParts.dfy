// Finishing a part, and with its last part a chunk, keeps the engine's invariant.
module AggrParts {
  import opened EdgePartition
  import opened AggrSpec
  import opened AggrTasks
  import opened AggrInvariant
  import opened AggrSimds

  // Only one edge buffer drains.
  lemma DrainingEdge(cfg: Setup, ebuf: seq<Spm>, chunkCnt: nat, confirmed: nat, edgesOut: nat, e: nat)
    requires cfg.Valid() && EdgesOk(cfg, ebuf, chunkCnt, confirmed, edgesOut)
    requires e < 2 && ebuf[e].state == Draining
    ensures Target(ebuf, Draining) == e && Has(ebuf, Draining) && ebuf[1 - e].state != Draining
    ensures EdgeBufOk(cfg, ebuf[e], confirmed, chunkCnt) && EdgeBufOk(cfg, ebuf[1 - e], confirmed, chunkCnt)
  {
    TargetOfTwo(ebuf, Draining);
  }

  // The last running job of a drained part.
  lemma LastJob(cfg: Setup, s: Engine, i: nat, p: nat)
    requires cfg.Valid() && Core(cfg, s, false) && i < |s.simds|
    requires s.simds[i].state == Computing && s.simds[i].depth <= 1
    requires p < 2 && s.inbuf[p].state == Draining && s.inbuf[p].events == 1
    ensures Remaining(cfg, s.inbuf[p]) == [] && Busy(AfterJob(s, i).simds) == 0
  {
    FinishesJob(cfg, s, i);
    DrainingInput(cfg, s.ebuf, s.inbuf, s.inputsOut, false, p);
    BusyOne(s.simds, i);
  }

  // -------------------------------------------------------------- another part

  lemma NextPartEdges(cfg: Setup, ebuf: seq<Spm>, chunkCnt: nat, confirmed: nat, edgesOut: nat, e: nat, eb: Spm)
    requires cfg.Valid() && EdgesOk(cfg, ebuf, chunkCnt, confirmed, edgesOut)
    requires e < 2 && ebuf[e].state == Draining && PartsDone(ebuf[e]) < ebuf[e].partCnt
    requires eb == ebuf[e].(events := ebuf[e].events - 1) && eb.events != 0
    ensures EdgesOk(cfg, ebuf[e := eb], chunkCnt, confirmed, edgesOut)
    ensures Target(ebuf[e := eb], Draining) == e
  {
    DrainingEdge(cfg, ebuf, chunkCnt, confirmed, edgesOut, e);
    TargetOfTwo(ebuf[e := eb], Draining);
  }

  // An input buffer that goes idle.
  predicate GoesIdle(b: Spm, idle: Spm) { idle == b.SwitchState(Idle).(events := idle.events) }

  lemma NextPartPair(cfg: Setup, eb: Spm, e: nat, a: Spm, b: Spm, idle: Spm)
    requires PairOk(cfg, eb, e, a, b, false) && a.state == Draining && b.state != Draining && GoesIdle(a, idle)
    ensures PairOk(cfg, eb.(events := eb.events - 1), e, idle, b, false)
  {
  }

  lemma NextPartInputs(cfg: Setup, ebuf: seq<Spm>, inbuf: seq<Spm>, inputsOut: nat, e: nat, eb: Spm, p: nat, idle: Spm)
    requires InputsOk(cfg, ebuf, inbuf, inputsOut, false) && p < 2 && inbuf[p].state == Draining && GoesIdle(inbuf[p], idle)
    requires e == Target(ebuf, Draining) && e < 2 && eb == ebuf[e].(events := ebuf[e].events - 1)
    requires Target(ebuf[e := eb], Draining) == e
    ensures InputsOk(cfg, ebuf[e := eb], inbuf[p := idle], inputsOut, false)
    ensures !Has(inbuf[p := idle], Draining)
  {
    DrainingInput(cfg, ebuf, inbuf, inputsOut, false, p);
    TargetOfTwo(inbuf[p := idle], Draining);
    NextPartPair(cfg, ebuf[e], e, inbuf[p], inbuf[1 - p], idle);
    InputsFromPair(cfg, ebuf[e := eb], inbuf, inputsOut, false, p, idle);
  }

  lemma RestWithoutCurrent(cfg: Setup, eb: Spm, inbuf: seq<Spm>, inbuf': seq<Spm>)
    requires 0 <= PartsDone(eb) < |eb.parts| - 1
    requires Has(inbuf, Draining) && Remaining(cfg, inbuf[Target(inbuf, Draining)]) == [] && !Has(inbuf', Draining)
    ensures RestOfChunk(cfg, eb.(events := eb.events - 1), inbuf') == RestOfChunk(cfg, eb, inbuf)
  {
  }

  lemma FreeSimdsOk(cfg: Setup, ready: int, ready': int, inbuf: seq<Spm>, inbuf': seq<Spm>, simds: seq<Simd>)
    requires SimdsOk(cfg, ready, inbuf, simds) && Busy(simds) == 0
    ensures SimdsOk(cfg, ready', inbuf', simds)
  {
    NoneBusy(simds);
    forall i | 0 <= i < |simds|
      ensures SimdOk(cfg, ready', inbuf', simds[i])
    {
      assert SimdOk(cfg, ready, inbuf, simds[i]);
    }
  }

  lemma SameChunkToDo(cfg: Setup, ebuf: seq<Spm>, ebuf': seq<Spm>, inbuf: seq<Spm>, inbuf': seq<Spm>, confirmed: nat, e: nat)
    requires cfg.Valid() && e == Target(ebuf, Draining) == Target(ebuf', Draining) && e < |ebuf| == |ebuf'|
    requires RestOfChunk(cfg, ebuf'[e], inbuf') == RestOfChunk(cfg, ebuf[e], inbuf)
    ensures ToDo(cfg, ebuf', inbuf', confirmed) == ToDo(cfg, ebuf, inbuf, confirmed)
  {
  }

  lemma SameChunkPointers(cfg: Setup, ebuf: seq<Spm>, ebuf': seq<Spm>, aggr: int, ready: int, confirmed: nat, e: nat)
    requires cfg.Valid() && confirmed <= |cfg.chunks| && PointersOk(cfg, ebuf, aggr, ready, confirmed)
    requires e == Target(ebuf, Draining) == Target(ebuf', Draining) && e < |ebuf| == |ebuf'|
    requires ebuf'[e].start == ebuf[e].start && ebuf'[e].end == ebuf[e].end
    ensures PointersOk(cfg, ebuf', aggr, ready, confirmed)
  {
  }

  // The state with the input buffer free again.
  function AfterPart(s: Engine, i: nat, p: nat): Engine
    requires i < |s.simds| && p < |s.inbuf|
  {
    AfterJob(s, i).(inbuf := s.inbuf[p := s.inbuf[p].(events := 0).SwitchState(Idle)])
  }

  // The edge buffer whose part an input buffer drains.
  lemma DrainsFrom(cfg: Setup, s: Engine, p: nat) returns (e: nat)
    requires cfg.Valid() && Core(cfg, s, false) && p < 2 && s.inbuf[p].state == Draining
    ensures e < 2 && e == s.inbuf[p].ebuf == Target(s.ebuf, Draining) == Target(s.ebuf, Draining)
    ensures s.ebuf[e].state == Draining && 0 <= PartsDone(s.ebuf[e]) < s.ebuf[e].partCnt <= |s.ebuf[e].parts|
    ensures Target(s.inbuf, Draining) == p
  {
    DrainingInput(cfg, s.ebuf, s.inbuf, s.inputsOut, false, p);
    e := Target(s.ebuf, Draining);
  }

  // The buffers' part of the invariant, after a change of one of each.
  ghost predicate BuffersOk(cfg: Setup, s: Engine, ebuf: seq<Spm>, inbuf: seq<Spm>, ready: Pointer, confirmed: nat)
    requires cfg.Valid()
  {
    && EdgesOk(cfg, ebuf, s.chunkCnt, confirmed, s.edgesOut)
    && PointersOk(cfg, ebuf, s.aggr.vertex, ready.vertex, confirmed)
    && InputsOk(cfg, ebuf, inbuf, s.inputsOut, false)
    && !Has(inbuf, Draining)
  }

  lemma PartBuffers(cfg: Setup, s: Engine, p: nat, e: nat, eb: Spm, idle: Spm)
    requires cfg.Valid() && Core(cfg, s, false) && p < 2 && s.inbuf[p].state == Draining && GoesIdle(s.inbuf[p], idle)
    requires Remaining(cfg, s.inbuf[p]) == []
    requires e < 2 && e == s.inbuf[p].ebuf && eb == s.ebuf[e].(events := s.ebuf[e].events - 1) && eb.events != 0
    ensures BuffersOk(cfg, s, s.ebuf[e := eb], s.inbuf[p := idle], s.ready, s.confirmed)
  {
    var e' := DrainsFrom(cfg, s, p);
    NextPartEdges(cfg, s.ebuf, s.chunkCnt, s.confirmed, s.edgesOut, e, eb);
    NextPartInputs(cfg, s.ebuf, s.inbuf, s.inputsOut, e, eb, p, idle);
    SameChunkPointers(cfg, s.ebuf, s.ebuf[e := eb], s.aggr.vertex, s.ready.vertex, s.confirmed, e);
  }

  lemma KeepsTarget(bufs: seq<Spm>, e: nat, b: Spm)
    requires |bufs| == 2 && e < 2 && Target(bufs, Draining) == e && b.state == Draining
    ensures Target(bufs[e := b], Draining) == e
  {
    TargetOfTwo(bufs, Draining);
    TargetOfTwo(bufs[e := b], Draining);
  }

  lemma LosesTarget(bufs: seq<Spm>, p: nat, b: Spm)
    requires |bufs| == 2 && p < 2 && bufs[1 - p].state != Draining && b.state != Draining
    ensures !Has(bufs[p := b], Draining)
  {
    TargetOfTwo(bufs[p := b], Draining);
  }

  lemma NotLastPart(eb: Spm, eb': Spm)
    requires PartsDone(eb) < |eb.parts| && eb' == eb.(events := eb.events - 1) && eb'.events != 0
    ensures PartsDone(eb) < |eb.parts| - 1 && eb'.state == eb.state
  {
  }

  lemma IdleIs(b: Spm, idle: Spm)
    requires GoesIdle(b, idle)
    ensures idle.state == Idle
  {
  }

  lemma IsDraining(inbuf: seq<Spm>, p: nat)
    requires p == Target(inbuf, Draining) && p < |inbuf|
    ensures Has(inbuf, Draining)
  {
  }

  lemma CoreInputs(cfg: Setup, s: Engine, mid: bool)
    requires cfg.Valid() && Core(cfg, s, mid)
    ensures InputsOk(cfg, s.ebuf, s.inbuf, s.inputsOut, mid) && |s.ebuf| == |s.inbuf| == 2
  {
  }

  lemma PartEnd(cfg: Setup, s: Engine, p: nat, e: nat, eb: Spm, idle: Spm)
    requires cfg.Valid() && Core(cfg, s, false) && p < 2 && s.inbuf[p].state == Draining && GoesIdle(s.inbuf[p], idle)
    requires Remaining(cfg, s.inbuf[p]) == []
    requires e < 2 && e == s.inbuf[p].ebuf && eb == s.ebuf[e].(events := s.ebuf[e].events - 1) && eb.events != 0
    ensures |s.ebuf| == |s.inbuf| == 2
    ensures e == Target(s.ebuf, Draining) == Target(s.ebuf[e := eb], Draining)
    ensures RestOfChunk(cfg, eb, s.inbuf[p := idle]) == RestOfChunk(cfg, s.ebuf[e], s.inbuf)
  {
    hide *;
    CoreInputs(cfg, s, false);
    var e' := DrainsFrom(cfg, s, p);
    IdleIs(s.inbuf[p], idle);
    NotLastPart(s.ebuf[e], eb);
    DrainingInput(cfg, s.ebuf, s.inbuf, s.inputsOut, false, p);
    LosesTarget(s.inbuf, p, idle);
    KeepsTarget(s.ebuf, e, eb);
    IsDraining(s.inbuf, p);
    RestWithoutCurrent(cfg, s.ebuf[e], s.inbuf, s.inbuf[p := idle]);
  }

  lemma PartToDo(cfg: Setup, s: Engine, p: nat, e: nat, eb: Spm, idle: Spm)
    requires cfg.Valid() && Core(cfg, s, false) && p < 2 && s.inbuf[p].state == Draining && GoesIdle(s.inbuf[p], idle)
    requires Remaining(cfg, s.inbuf[p]) == []
    requires e < 2 && e == s.inbuf[p].ebuf && eb == s.ebuf[e].(events := s.ebuf[e].events - 1) && eb.events != 0
    ensures ToDo(cfg, s.ebuf[e := eb], s.inbuf[p := idle], s.confirmed) == ToDo(cfg, s.ebuf, s.inbuf, s.confirmed)
  {
    hide *;
    PartEnd(cfg, s, p, e, eb, idle);
    SameChunkToDo(cfg, s.ebuf, s.ebuf[e := eb], s.inbuf, s.inbuf[p := idle], s.confirmed, e);
  }

  // The last job of a part, the buffers having been seen to.
  lemma Assemble(cfg: Setup, s: Engine, i: nat, p: nat, ebuf: seq<Spm>, ready: Pointer, confirmed: nat)
    requires cfg.Valid() && Core(cfg, s, false) && i < |s.simds|
    requires s.simds[i].state == Computing && s.simds[i].depth <= 1
    requires p < 2 && s.inbuf[p].state == Draining && s.inbuf[p].events == 1
    requires BuffersOk(cfg, s, ebuf, AfterPart(s, i, p).inbuf, ready, confirmed)
    ensures Core(cfg, AfterPart(s, i, p).(ebuf := ebuf, ready := ready, confirmed := confirmed), false)
  {
    FinishesJob(cfg, s, i);
    LastJob(cfg, s, i, p);
    FreeSimdsOk(cfg, s.ready.vertex, ready.vertex, s.inbuf, AfterPart(s, i, p).inbuf, AfterJob(s, i).simds);
  }

  lemma PartFinished(cfg: Setup, s: Engine, i: nat, p: nat, e: nat, eb: Spm)
    requires cfg.Valid() && Core(cfg, s, false) && i < |s.simds|
    requires s.simds[i].state == Computing && s.simds[i].depth <= 1
    requires p < 2 && s.inbuf[p].state == Draining && s.inbuf[p].events == 1
    requires e < 2 && e == s.inbuf[p].ebuf && eb == s.ebuf[e].(events := s.ebuf[e].events - 1) && eb.events != 0
    ensures Core(cfg, AfterPart(s, i, p).(ebuf := s.ebuf[e := eb]), false)
    ensures SameToDo(cfg, s, AfterPart(s, i, p).(ebuf := s.ebuf[e := eb]))
  {
    LastJob(cfg, s, i, p);
    PartToDo(cfg, s, p, e, eb, s.inbuf[p].(events := 0).SwitchState(Idle));
    PartBuffers(cfg, s, p, e, eb, s.inbuf[p].(events := 0).SwitchState(Idle));
    Assemble(cfg, s, i, p, s.ebuf[e := eb], s.ready, s.confirmed);
  }

  // ------------------------------------------------------------- a whole chunk

  lemma ChunkEdges(cfg: Setup, ebuf: seq<Spm>, chunkCnt: nat, confirmed: nat, edgesOut: nat, e: nat, idle: Spm)
    requires cfg.Valid() && EdgesOk(cfg, ebuf, chunkCnt, confirmed, edgesOut)
    requires e < 2 && ebuf[e].state == Draining && GoesIdle(ebuf[e], idle)
    ensures confirmed < chunkCnt && EdgesOk(cfg, ebuf[e := idle], chunkCnt, confirmed + 1, edgesOut)
    ensures !Has(ebuf[e := idle], Draining)
  {
    DrainingEdge(cfg, ebuf, chunkCnt, confirmed, edgesOut, e);
    TargetOfTwo(ebuf[e := idle], Draining);
  }

  lemma ChunkPointers(cfg: Setup, ebuf: seq<Spm>, ebuf': seq<Spm>, aggr: int, ready: int, confirmed: nat, chunkCnt: nat, e: nat)
    requires cfg.Valid() && confirmed < chunkCnt <= |cfg.chunks| && PointersOk(cfg, ebuf, aggr, ready, confirmed)
    requires e == Target(ebuf, Draining) && e < |ebuf| && !Has(ebuf', Draining)
    requires EdgeBufOk(cfg, ebuf[e], confirmed, chunkCnt)
    ensures PointersOk(cfg, ebuf', aggr, ready + ebuf[e].end - ebuf[e].start, confirmed + 1)
  {
    assert cfg.ChunkOk(confirmed);
  }

  lemma ChunkInputs(cfg: Setup, ebuf: seq<Spm>, ebuf': seq<Spm>, inbuf: seq<Spm>, inputsOut: nat, p: nat, idle: Spm)
    requires InputsOk(cfg, ebuf, inbuf, inputsOut, false) && p < 2 && inbuf[p].state == Draining && GoesIdle(inbuf[p], idle)
    requires |ebuf'| == 2 && !Has(ebuf', Draining)
    requires Has(ebuf, Draining) && PartsDone(ebuf[Target(ebuf, Draining)]) == |ebuf[Target(ebuf, Draining)].parts| - 1
    ensures InputsOk(cfg, ebuf', inbuf[p := idle], inputsOut, false)
    ensures !Has(inbuf[p := idle], Draining)
  {
    DrainingInput(cfg, ebuf, inbuf, inputsOut, false, p);
    TargetOfTwo(inbuf[p := idle], Draining);
  }

  lemma RestIsNothing(cfg: Setup, eb: Spm, inbuf: seq<Spm>)
    requires PartsDone(eb) == |eb.parts| - 1
    requires Has(inbuf, Draining) && Remaining(cfg, inbuf[Target(inbuf, Draining)]) == []
    ensures RestOfChunk(cfg, eb, inbuf) == []
  {
  }

  lemma ChunkToDo(cfg: Setup, ebuf: seq<Spm>, ebuf': seq<Spm>, inbuf: seq<Spm>, inbuf': seq<Spm>, confirmed: nat)
    requires cfg.Valid() && Has(ebuf, Draining) && !Has(ebuf', Draining)
    requires RestOfChunk(cfg, ebuf[Target(ebuf, Draining)], inbuf) == []
    ensures ToDo(cfg, ebuf', inbuf', confirmed + 1) == ToDo(cfg, ebuf, inbuf, confirmed)
  {
  }

  lemma ChunkMoves(cfg: Setup, s: Engine, p: nat, e: nat, idleEdge: Spm)
    requires cfg.Valid() && Core(cfg, s, false) && p < 2 && s.inbuf[p].state == Draining
    requires e < 2 && e == s.inbuf[p].ebuf && GoesIdle(s.ebuf[e], idleEdge)
    ensures s.confirmed < s.chunkCnt && !Has(s.ebuf[e := idleEdge], Draining)
    ensures EdgesOk(cfg, s.ebuf[e := idleEdge], s.chunkCnt, s.confirmed + 1, s.edgesOut)
    ensures PointersOk(cfg, s.ebuf[e := idleEdge], s.aggr.vertex, s.ready.vertex + s.ebuf[e].end - s.ebuf[e].start, s.confirmed + 1)
  {
    var e' := DrainsFrom(cfg, s, p);
    ChunkEdges(cfg, s.ebuf, s.chunkCnt, s.confirmed, s.edgesOut, e, idleEdge);
    ChunkPointers(cfg, s.ebuf, s.ebuf[e := idleEdge], s.aggr.vertex, s.ready.vertex, s.confirmed, s.chunkCnt, e);
  }

  lemma ChunkLeavesInputs(cfg: Setup, s: Engine, p: nat, e: nat, ebuf': seq<Spm>, idle: Spm)
    requires cfg.Valid() && Core(cfg, s, false) && p < 2 && s.inbuf[p].state == Draining && GoesIdle(s.inbuf[p], idle)
    requires e < 2 && e == s.inbuf[p].ebuf && s.ebuf[e].events == 1
    requires |ebuf'| == 2 && !Has(ebuf', Draining)
    ensures InputsOk(cfg, ebuf', s.inbuf[p := idle], s.inputsOut, false) && !Has(s.inbuf[p := idle], Draining)
  {
    var e' := DrainsFrom(cfg, s, p);
    ChunkInputs(cfg, s.ebuf, ebuf', s.inbuf, s.inputsOut, p, idle);
  }

  lemma ChunkLeavesToDo(cfg: Setup, ebuf: seq<Spm>, ebuf': seq<Spm>, inbuf: seq<Spm>, inbuf': seq<Spm>, confirmed: nat, p: nat, e: nat)
    requires cfg.Valid() && p == Target(inbuf, Draining) && p < |inbuf| && e == Target(ebuf, Draining) && e < |ebuf|
    requires Remaining(cfg, inbuf[p]) == [] && PartsDone(ebuf[e]) == |ebuf[e].parts| - 1
    requires !Has(ebuf', Draining)
    ensures ToDo(cfg, ebuf', inbuf', confirmed + 1) == ToDo(cfg, ebuf, inbuf, confirmed)
  {
    RestIsNothing(cfg, ebuf[e], inbuf);
    ChunkToDo(cfg, ebuf, ebuf', inbuf, inbuf', confirmed);
  }

  lemma ChunkBuffers(cfg: Setup, s: Engine, p: nat, e: nat, idleEdge: Spm, idle: Spm, ready: Pointer)
    requires cfg.Valid() && Core(cfg, s, false) && p < 2 && s.inbuf[p].state == Draining && GoesIdle(s.inbuf[p], idle)
    requires e < 2 && e == s.inbuf[p].ebuf && s.ebuf[e].events == 1 && GoesIdle(s.ebuf[e], idleEdge)
    requires ready.vertex == s.ready.vertex + s.ebuf[e].end - s.ebuf[e].start
    ensures BuffersOk(cfg, s, s.ebuf[e := idleEdge], s.inbuf[p := idle], ready, s.confirmed + 1)
    ensures !Has(s.ebuf[e := idleEdge], Draining)
  {
    ChunkMoves(cfg, s, p, e, idleEdge);
    ChunkLeavesInputs(cfg, s, p, e, s.ebuf[e := idleEdge], idle);
  }

  lemma TwoBuffers(cfg: Setup, s: Engine, mid: bool)
    requires cfg.Valid() && Core(cfg, s, mid)
    ensures |s.ebuf| == |s.inbuf| == 2
  {
  }

  lemma InputIdles(b: Spm)
    ensures GoesIdle(b, b.(events := 0).SwitchState(Idle))
  {
  }

  lemma AfterPartIs(s: Engine, i: nat, p: nat)
    requires i < |s.simds| && p < |s.inbuf|
    ensures AfterPart(s, i, p).inbuf == s.inbuf[p := s.inbuf[p].(events := 0).SwitchState(Idle)]
    ensures AfterPart(s, i, p).ebuf == s.ebuf && AfterPart(s, i, p).confirmed == s.confirmed
    ensures AfterPart(s, i, p).ready == s.ready && AfterPart(s, i, p).started == s.started
  {
  }

  lemma ChunkFinished(cfg: Setup, s: Engine, i: nat, p: nat, e: nat, idleEdge: Spm, ready: Pointer)
    requires cfg.Valid() && Core(cfg, s, false) && i < |s.simds|
    requires s.simds[i].state == Computing && s.simds[i].depth <= 1
    requires p < 2 && s.inbuf[p].state == Draining && s.inbuf[p].events == 1
    requires e < 2 && e == s.inbuf[p].ebuf && s.ebuf[e].events == 1 && GoesIdle(s.ebuf[e], idleEdge)
    requires ready.vertex == s.ready.vertex + s.ebuf[e].end - s.ebuf[e].start
    ensures Core(cfg, AfterPart(s, i, p).(ebuf := s.ebuf[e := idleEdge], confirmed := s.confirmed + 1, ready := ready), false)
  {
    hide *;
    TwoBuffers(cfg, s, false);
    InputIdles(s.inbuf[p]);
    AfterPartIs(s, i, p);
    ChunkBuffers(cfg, s, p, e, idleEdge, s.inbuf[p].(events := 0).SwitchState(Idle), ready);
    Assemble(cfg, s, i, p, s.ebuf[e := idleEdge], ready, s.confirmed + 1);
  }

  lemma ChunkEnd(cfg: Setup, s: Engine, i: nat, p: nat, e: nat, idleEdge: Spm)
    requires cfg.Valid() && Core(cfg, s, false) && i < |s.simds|
    requires s.simds[i].state == Computing && s.simds[i].depth <= 1
    requires p < 2 && s.inbuf[p].state == Draining && s.inbuf[p].events == 1
    requires e < 2 && e == s.inbuf[p].ebuf && s.ebuf[e].events == 1 && GoesIdle(s.ebuf[e], idleEdge)
    ensures p == Target(s.inbuf, Draining) && e == Target(s.ebuf, Draining)
    ensures Remaining(cfg, s.inbuf[p]) == [] && PartsDone(s.ebuf[e]) == |s.ebuf[e].parts| - 1
    ensures !Has(s.ebuf[e := idleEdge], Draining) && |s.ebuf| == |s.inbuf| == 2
  {
    LastJob(cfg, s, i, p);
    ChunkMoves(cfg, s, p, e, idleEdge);
    var e' := DrainsFrom(cfg, s, p);
  }

  lemma ChunkFinishedToDo(cfg: Setup, s: Engine, i: nat, p: nat, e: nat, idleEdge: Spm, inbuf': seq<Spm>)
    requires cfg.Valid() && Core(cfg, s, false) && i < |s.simds|
    requires s.simds[i].state == Computing && s.simds[i].depth <= 1
    requires p < 2 && s.inbuf[p].state == Draining && s.inbuf[p].events == 1
    requires e < 2 && e == s.inbuf[p].ebuf && s.ebuf[e].events == 1 && GoesIdle(s.ebuf[e], idleEdge)
    ensures ToDo(cfg, s.ebuf[e := idleEdge], inbuf', s.confirmed + 1) == ToDo(cfg, s.ebuf, s.inbuf, s.confirmed)
  {
    hide *;
    ChunkEnd(cfg, s, i, p, e, idleEdge);
    ChunkLeavesToDo(cfg, s.ebuf, s.ebuf[e := idleEdge], s.inbuf, inbuf', s.confirmed, p, e);
  }

  // ------------------------------------------------------------- all SIMDs

  // What the write-back of a finished job amounts to.
  lemma WriteBackGoesOn(cfg: Setup, s: Engine, i: nat, p: nat, b: Spm)
    requires cfg.Valid() && i < |s.simds| && s.simds[i].state == Computing && s.simds[i].depth <= 1
    requires p == s.simds[i].inbuf && p < |s.inbuf| && s.inbuf[p].state == Draining && s.simds[i].vertex >= s.ready.vertex
    requires b == s.inbuf[p].(events := s.inbuf[p].events - 1) && b.events != 0
    ensures StepSimd(cfg, s, i) == AfterJob(s, i).(inbuf := s.inbuf[p := b])
  {
    assert s.simds[i := s.simds[i].ClockTick()][i := Released(s.simds[i])] == s.simds[i := Released(s.simds[i])];
  }

  lemma WriteBackEnds(cfg: Setup, s: Engine, i: nat, p: nat)
    requires cfg.Valid() && i < |s.simds| && s.simds[i].state == Computing && s.simds[i].depth <= 1
    requires p == s.simds[i].inbuf && p < |s.inbuf| && s.inbuf[p].state == Draining && s.simds[i].vertex >= s.ready.vertex
    requires s.inbuf[p].events == 1
    ensures StepSimd(cfg, s, i) == ConfirmPart(cfg, AfterPart(s, i, p), s.inbuf[p].ebuf)
  {
    assert s.simds[i := s.simds[i].ClockTick()][i := Released(s.simds[i])] == s.simds[i := Released(s.simds[i])];
  }

  lemma ConfirmGoesOn(cfg: Setup, s: Engine, e: nat, eb: Spm)
    requires cfg.Valid() && e < |s.ebuf| && eb == s.ebuf[e].(events := s.ebuf[e].events - 1) && eb.events != 0
    ensures ConfirmPart(cfg, s, e) == s.(ebuf := s.ebuf[e := eb])
  {
  }

  lemma ConfirmEnds(cfg: Setup, s: Engine, e: nat) returns (idle: Spm, ready: Pointer)
    requires cfg.Valid() && e < |s.ebuf| && s.ebuf[e].events == 1 && s.ebuf[e].state == Draining
    ensures GoesIdle(s.ebuf[e], idle) && ready == Advance(cfg, s.ready, s.ebuf[e].end - s.ebuf[e].start)
    ensures ready.vertex == s.ready.vertex + s.ebuf[e].end - s.ebuf[e].start
    ensures ConfirmPart(cfg, s, e) == s.(ebuf := s.ebuf[e := idle], confirmed := s.confirmed + 1, ready := ready)
  {
    idle := s.ebuf[e].(events := 0).SwitchState(Idle);
    ready := Advance(cfg, s.ready, s.ebuf[e].end - s.ebuf[e].start);
  }

  ghost predicate Kept(cfg: Setup, s: Engine, s': Engine)
    requires cfg.Valid()
  {
    Core(cfg, s', false) && SameToDo(cfg, s, s')
  }

  lemma JobEnds(cfg: Setup, s: Engine, i: nat, p: nat, s': Engine)
    requires cfg.Valid() && Core(cfg, s, false) && i < |s.simds|
    requires s.simds[i].state == Computing && s.simds[i].depth <= 1
    requires p < 2 && s.inbuf[p].state == Draining && s.inbuf[p].events == 1
    requires |s.ebuf| == |s.inbuf| == 2 && s' == ConfirmPart(cfg, AfterPart(s, i, p), s.inbuf[p].ebuf)
    ensures Kept(cfg, s, s')
  {
    hide Core, AfterPart, ToDo, Setup.Valid;
    var e := DrainsFrom(cfg, s, p);
    AfterPartIs(s, i, p);
    var eb := s.ebuf[e].(events := s.ebuf[e].events - 1);
    if eb.events != 0 {
      PartFinished(cfg, s, i, p, e, eb);
      ConfirmGoesOn(cfg, AfterPart(s, i, p), e, eb);
    } else {
      var idle, ready := ConfirmEnds(cfg, AfterPart(s, i, p), e);
      ChunkFinished(cfg, s, i, p, e, idle, ready);
      ChunkFinishedToDo(cfg, s, i, p, e, idle, s'.inbuf);
    }
  }

  lemma RunningFacts(cfg: Setup, s: Engine, i: nat)
    requires cfg.Valid() && Core(cfg, s, false) && i < |s.simds|
    ensures s.simds[i].state != Done && |s.ebuf| == |s.inbuf| == 2
    ensures s.simds[i].state == Computing ==>
              var p := s.simds[i].inbuf;
              0 <= p < 2 && s.inbuf[p].state == Draining && s.simds[i].vertex >= s.ready.vertex && s.simds[i].depth > 0
  {
    assert SimdOk(cfg, s.ready.vertex, s.inbuf, s.simds[i]);
  }

  lemma RestsOn(cfg: Setup, s: Engine, i: nat)
    requires cfg.Valid() && i < |s.simds| && s.simds[i].state == Free
    ensures StepSimd(cfg, s, i) == s
  {
    assert s.simds[i := s.simds[i]] == s.simds;
  }

  lemma SameToDoSelf(cfg: Setup, s: Engine)
    requires cfg.Valid()
    ensures SameToDo(cfg, s, s)
  {
  }

  // One cycle of one SIMD.
  lemma StepSimdKeeps(cfg: Setup, s: Engine, i: nat)
    requires cfg.Valid() && Core(cfg, s, false) && i < |s.simds|
    ensures Kept(cfg, s, StepSimd(cfg, s, i))
  {
    RunningFacts(cfg, s, i);
    if s.simds[i].state == Free {
      RestsOn(cfg, s, i);
    } else if s.simds[i].depth > 1 {
      RunsOn(cfg, s, i);
    } else {
      var p := s.simds[i].inbuf;
      var b := s.inbuf[p].(events := s.inbuf[p].events - 1);
      if b.events != 0 {
        PartGoesOn(cfg, s, i, p, b);
        WriteBackGoesOn(cfg, s, i, p, b);
      } else {
        WriteBackEnds(cfg, s, i, p);
        JobEnds(cfg, s, i, p, StepSimd(cfg, s, i));
      }
    }
  }

  lemma KeptTwice(cfg: Setup, s: Engine, s1: Engine, s2: Engine)
    requires cfg.Valid() && Kept(cfg, s, s1) && Kept(cfg, s1, s2)
    ensures Kept(cfg, s, s2)
  {
  }

  lemma StepSimdsUnfold(cfg: Setup, s: Engine, n: nat)
    requires cfg.Valid() && n <= |s.simds|
    ensures n == 0 ==> StepSimds(cfg, s, n) == s
    ensures n > 0 && !StepSimds(cfg, s, n - 1).failed ==> StepSimds(cfg, s, n) == StepSimd(cfg, StepSimds(cfg, s, n - 1), n - 1)
  {
  }

  lemma KeptRuns(cfg: Setup, s: Engine, s': Engine)
    requires cfg.Valid() && Kept(cfg, s, s')
    ensures Core(cfg, s', false) && !s'.failed
  {
  }

  lemma KeptSelf(cfg: Setup, s: Engine)
    requires cfg.Valid() && Core(cfg, s, false)
    ensures Kept(cfg, s, s)
  {
  }

  lemma {:induction false} StepSimdsKeep(cfg: Setup, s: Engine, n: nat)
    requires cfg.Valid() && Core(cfg, s, false) && n <= |s.simds|
    ensures Kept(cfg, s, StepSimds(cfg, s, n))
  {
    hide *;
    StepSimdsUnfold(cfg, s, n);
    if n > 0 {
      StepSimdsKeep(cfg, s, n - 1);
      var s1 := StepSimds(cfg, s, n - 1);
      KeptRuns(cfg, s, s1);
      StepSimdKeeps(cfg, s1, n - 1);
      KeptTwice(cfg, s, s1, StepSimd(cfg, s1, n - 1));
    } else {
      KeptSelf(cfg, s);
    }
  }
}
