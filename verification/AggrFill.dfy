// Filling the buffers keeps the engine's invariant: fetching a chunk, opening
// the next chunk and binding its next part.
module AggrFill {
  import opened EdgePartition
  import opened AggrSpec
  import opened AggrTasks
  import opened AggrInvariant
  import opened AggrSimds
  import opened AggrParts

  // --------------------------------------------------------- the next chunk

  lemma FillEdgeBufs(cfg: Setup, ebuf: seq<Spm>, chunkCnt: nat, confirmed: nat, edgesOut: nat, i: nat, eb: Spm)
    requires cfg.Valid() && EdgesOk(cfg, ebuf, chunkCnt, confirmed, edgesOut) && chunkCnt < |cfg.chunks|
    requires i < 2 && ebuf[i].state == Idle && CountIn(ebuf, Filling) == 0
    requires eb.state == Filling && eb.events == 1 && eb.chunkId == chunkCnt && eb.partCnt == 0
    requires eb.start == cfg.chunks[chunkCnt].start && eb.end == eb.start + |cfg.chunks[chunkCnt].rows| && eb.parts == cfg.PartsOf(chunkCnt)
    ensures EdgesOk(cfg, ebuf[i := eb], chunkCnt + 1, confirmed, edgesOut + 1)
  {
  }

  lemma FillEdgeTarget(ebuf: seq<Spm>, i: nat, eb: Spm)
    requires |ebuf| == 2 && i < 2 && ebuf[i].state != Draining && eb.state != Draining
    ensures Target(ebuf[i := eb], Draining) == Target(ebuf, Draining)
    ensures Target(ebuf, Draining) < 2 ==> ebuf[i := eb][Target(ebuf, Draining)] == ebuf[Target(ebuf, Draining)]
  {
    TargetOfTwo(ebuf, Draining);
    TargetOfTwo(ebuf[i := eb], Draining);
  }

  // Whatever looks at the draining buffer only does not see another one change.
  lemma OtherEdge(cfg: Setup, ebuf: seq<Spm>, ebuf': seq<Spm>, inbuf: seq<Spm>, aggr: int, ready: int, confirmed: nat, inputsOut: nat,
                  mid: bool)
    requires cfg.Valid() && |ebuf| == |ebuf'| == 2 && Target(ebuf', Draining) == Target(ebuf, Draining)
    requires Target(ebuf, Draining) < 2 ==> ebuf'[Target(ebuf, Draining)] == ebuf[Target(ebuf, Draining)]
    requires confirmed <= |cfg.chunks|
    ensures PointersOk(cfg, ebuf, aggr, ready, confirmed) ==> PointersOk(cfg, ebuf', aggr, ready, confirmed)
    ensures InputsOk(cfg, ebuf, inbuf, inputsOut, mid) ==> InputsOk(cfg, ebuf', inbuf, inputsOut, mid)
  {
  }

  lemma OtherEdgeToDo(cfg: Setup, ebuf: seq<Spm>, ebuf': seq<Spm>, inbuf: seq<Spm>, confirmed: nat)
    requires cfg.Valid() && |ebuf| == |ebuf'| == 2 && Target(ebuf', Draining) == Target(ebuf, Draining)
    requires Target(ebuf, Draining) < 2 ==> ebuf'[Target(ebuf, Draining)] == ebuf[Target(ebuf, Draining)]
    ensures ToDo(cfg, ebuf', inbuf, confirmed) == ToDo(cfg, ebuf, inbuf, confirmed)
  {
  }

  // A change of the edge buffers alone.
  lemma EdgesSwap(cfg: Setup, s: Engine, ebuf: seq<Spm>, chunkCnt: nat, edgesOut: nat, mid: bool)
    requires cfg.Valid() && Core(cfg, s, mid)
    requires EdgesOk(cfg, ebuf, chunkCnt, s.confirmed, edgesOut)
    requires PointersOk(cfg, ebuf, s.aggr.vertex, s.ready.vertex, s.confirmed)
    requires InputsOk(cfg, ebuf, s.inbuf, s.inputsOut, mid)
    ensures Core(cfg, s.(ebuf := ebuf, chunkCnt := chunkCnt, edgesOut := edgesOut), mid)
  {
  }

  lemma SwapParts(cfg: Setup, s: Engine, mid: bool)
    requires cfg.Valid() && Core(cfg, s, mid)
    ensures |s.ebuf| == |s.inbuf| == 2 && s.confirmed <= s.chunkCnt <= |cfg.chunks|
    ensures EdgesOk(cfg, s.ebuf, s.chunkCnt, s.confirmed, s.edgesOut)
    ensures PointersOk(cfg, s.ebuf, s.aggr.vertex, s.ready.vertex, s.confirmed)
    ensures InputsOk(cfg, s.ebuf, s.inbuf, s.inputsOut, mid)
  {
  }

  // The buffer that receives the next chunk.
  function NextChunk(cfg: Setup, s: Engine, i: nat): Spm
    requires cfg.Valid() && i < |s.ebuf| && s.chunkCnt < |cfg.chunks|
  {
    var c := cfg.chunks[s.chunkCnt];
    s.ebuf[i].SwitchState(Filling).(events := 1, chunkId := s.chunkCnt, start := c.start, end := c.start + |c.rows|,
                                    parts := cfg.PartsOf(s.chunkCnt))
  }

  lemma FillEdgeCase(cfg: Setup, s: Engine) returns (fills: bool, i: nat)
    requires cfg.Valid() && Core(cfg, s, false)
    ensures !fills ==> FillEdge(cfg, s) == s
    ensures !fills ==> s.chunkCnt == |cfg.chunks| || !AllIdle(s.ebuf)
    ensures fills ==> s.chunkCnt < |cfg.chunks| && i < 2 == |s.ebuf| && s.ebuf[i].state == Idle && CountIn(s.ebuf, Filling) == 0
                      && FillEdge(cfg, s) == s.(ebuf := s.ebuf[i := NextChunk(cfg, s, i)], chunkCnt := s.chunkCnt + 1,
                                                edgesOut := s.edgesOut + 1)
                      && NextChunk(cfg, s, i).partCnt == 0
  {
    TargetOfTwo(s.ebuf, Idle);
    TargetOfTwo(s.ebuf, Filling);
    i := Target(s.ebuf, Idle);
    fills := s.chunkCnt != |cfg.chunks| && Has(s.ebuf, Idle) && !Has(s.ebuf, Filling);
  }

  lemma NotAllIdle(bufs: seq<Spm>, i: nat)
    requires i < |bufs| && bufs[i].state != Idle
    ensures !AllIdle(bufs)
  {
  }

  lemma FillEdgeKeeps(cfg: Setup, s: Engine)
    requires cfg.Valid() && Core(cfg, s, false)
    ensures Kept(cfg, s, FillEdge(cfg, s))
    ensures FillEdge(cfg, s).chunkCnt == |cfg.chunks| || !AllIdle(FillEdge(cfg, s).ebuf)
  {
    var fills, i := FillEdgeCase(cfg, s);
    if fills {
      FillEdgeDoes(cfg, s, i);
      NotAllIdle(s.ebuf[i := NextChunk(cfg, s, i)], i);
    } else {
      SameToDoSelf(cfg, s);
    }
  }

  lemma NextChunkIs(cfg: Setup, s: Engine, i: nat)
    requires cfg.Valid() && i < |s.ebuf| && s.chunkCnt < |cfg.chunks|
    ensures var eb := NextChunk(cfg, s, i);
            && eb.state == Filling && eb.events == 1 && eb.chunkId == s.chunkCnt
            && eb.start == cfg.chunks[s.chunkCnt].start && eb.end == eb.start + |cfg.chunks[s.chunkCnt].rows|
            && eb.parts == cfg.PartsOf(s.chunkCnt)
  {
  }

  lemma KeptBy(cfg: Setup, s: Engine, s': Engine)
    requires cfg.Valid() && Core(cfg, s', false) && s'.started == s.started
    requires ToDo(cfg, s'.ebuf, s'.inbuf, s'.confirmed) == ToDo(cfg, s.ebuf, s.inbuf, s.confirmed)
    ensures Kept(cfg, s, s')
  {
  }

  lemma FillEdgeDoes(cfg: Setup, s: Engine, i: nat)
    requires cfg.Valid() && Core(cfg, s, false) && s.chunkCnt < |cfg.chunks| && i < 2 == |s.ebuf|
    requires s.ebuf[i].state == Idle && CountIn(s.ebuf, Filling) == 0 && NextChunk(cfg, s, i).partCnt == 0
    ensures Kept(cfg, s, s.(ebuf := s.ebuf[i := NextChunk(cfg, s, i)], chunkCnt := s.chunkCnt + 1, edgesOut := s.edgesOut + 1))
  {
    hide *;
    var eb := NextChunk(cfg, s, i);
    var ebuf := s.ebuf[i := eb];
    SwapParts(cfg, s, false);
    NextChunkIs(cfg, s, i);
    FillEdgeBufs(cfg, s.ebuf, s.chunkCnt, s.confirmed, s.edgesOut, i, eb);
    FillEdgeTarget(s.ebuf, i, eb);
    OtherEdge(cfg, s.ebuf, ebuf, s.inbuf, s.aggr.vertex, s.ready.vertex, s.confirmed, s.inputsOut, false);
    OtherEdgeToDo(cfg, s.ebuf, ebuf, s.inbuf, s.confirmed);
    EdgesSwap(cfg, s, ebuf, s.chunkCnt + 1, s.edgesOut + 1, false);
    KeptBy(cfg, s, s.(ebuf := ebuf, chunkCnt := s.chunkCnt + 1, edgesOut := s.edgesOut + 1));
  }

  // ------------------------------------------------------- opening a chunk

  lemma LaterStart(cfg: Setup, c: nat)
    requires cfg.Valid() && c + 1 < |cfg.chunks|
    ensures cfg.chunks[c].start < cfg.chunks[c + 1].start
  {
    assert cfg.ChunkOk(c) && cfg.ChunkOk(c + 1);
  }

  // With none draining, the ready buffer with the smallest start vertex holds the
  // chunk that is next in order.
  lemma ReadyIsNext(cfg: Setup, ebuf: seq<Spm>, chunkCnt: nat, confirmed: nat, edgesOut: nat, e: nat)
    requires cfg.Valid() && EdgesOk(cfg, ebuf, chunkCnt, confirmed, edgesOut)
    requires !Has(ebuf, Draining) && e < 2 && ebuf[e].state == Ready
    requires forall j :: 0 <= j < |ebuf| && ebuf[j].state == Ready ==> ebuf[e].start <= ebuf[j].start
    ensures ebuf[e].chunkId == confirmed
  {
    var o := 1 - e;
    TargetOfTwo(ebuf, Draining);
    if ebuf[e].chunkId != confirmed {
      assert ebuf[o].state == Ready && ebuf[o].chunkId == confirmed;
      LaterStart(cfg, confirmed);
    }
  }

  predicate Opens(eb: Spm, eb': Spm) { eb' == eb.(state := Draining, events := |eb.parts|) }

  lemma OpenEdges(cfg: Setup, ebuf: seq<Spm>, chunkCnt: nat, confirmed: nat, edgesOut: nat, e: nat, eb: Spm)
    requires cfg.Valid() && EdgesOk(cfg, ebuf, chunkCnt, confirmed, edgesOut)
    requires e < 2 && ebuf[e].state == Ready && ebuf[e].chunkId == confirmed && Opens(ebuf[e], eb)
    ensures EdgesOk(cfg, ebuf[e := eb], chunkCnt, confirmed, edgesOut)
    ensures PartsDone(eb) == 0 && eb.partCnt == 0 && eb.parts != [] && eb.chunkId == confirmed
    ensures confirmed < |cfg.chunks| && eb.start == cfg.chunks[confirmed].start && eb.parts == cfg.PartsOf(confirmed)
  {
  }

  lemma OpenTarget(ebuf: seq<Spm>, e: nat, eb: Spm)
    requires |ebuf| == 2 && e < 2 && !Has(ebuf, Draining) && eb.state == Draining
    ensures Target(ebuf[e := eb], Draining) == e
  {
    TargetOfTwo(ebuf, Draining);
    TargetOfTwo(ebuf[e := eb], Draining);
  }

  lemma OpenBuffers(cfg: Setup, ebuf: seq<Spm>, inbuf: seq<Spm>, aggr: int, ready: int, confirmed: nat, inputsOut: nat, e: nat, eb: Spm)
    requires cfg.Valid() && confirmed <= |cfg.chunks|
    requires PointersOk(cfg, ebuf, aggr, ready, confirmed) && InputsOk(cfg, ebuf, inbuf, inputsOut, false)
    requires e < 2 && !Has(ebuf, Draining) && Opens(ebuf[e], eb) && PartsDone(eb) == 0 && eb.partCnt == 0
    requires Target(ebuf[e := eb], Draining) == e
    ensures PointersOk(cfg, ebuf[e := eb], aggr + eb.end - eb.start, ready, confirmed)
    ensures InputsOk(cfg, ebuf[e := eb], inbuf, inputsOut, false) && !Has(inbuf, Draining)
  {
    TargetOfTwo(inbuf, Draining);
  }

  lemma OpenRest(cfg: Setup, eb: Spm, inbuf: seq<Spm>)
    requires PartsDone(eb) == 0 && eb.parts != [] && !Has(inbuf, Draining)
    ensures RestOfChunk(cfg, eb, inbuf) == PartsTasks(cfg, eb.start, eb.parts, 0)
  {
  }

  lemma OpenToDo(cfg: Setup, ebuf: seq<Spm>, inbuf: seq<Spm>, confirmed: nat, e: nat, eb: Spm)
    requires cfg.Valid() && e < |ebuf| && confirmed < |cfg.chunks| && !Has(ebuf, Draining) && Target(ebuf[e := eb], Draining) == e
    requires eb.start == cfg.chunks[confirmed].start && eb.parts == cfg.PartsOf(confirmed)
    requires RestOfChunk(cfg, eb, inbuf) == PartsTasks(cfg, eb.start, eb.parts, 0)
    ensures ToDo(cfg, ebuf[e := eb], inbuf, confirmed) == ToDo(cfg, ebuf, inbuf, confirmed)
  {
  }

  lemma OpenChunkIs(cfg: Setup, s: Engine, e: nat) returns (eb: Spm, aggr: Pointer)
    requires cfg.Valid() && e < |s.ebuf|
    ensures Opens(s.ebuf[e], eb) && eb.state == Draining && eb.end == s.ebuf[e].end && eb.start == s.ebuf[e].start
    ensures aggr == Advance(cfg, s.aggr, s.ebuf[e].end - s.ebuf[e].start) && aggr.vertex == s.aggr.vertex + eb.end - eb.start
    ensures OpenChunk(cfg, s, e) == s.(ebuf := s.ebuf[e := eb], aggr := aggr)
  {
    eb := s.ebuf[e].SwitchState(Draining).(events := |s.ebuf[e].parts|);
    aggr := Advance(cfg, s.aggr, s.ebuf[e].end - s.ebuf[e].start);
  }

  lemma PointerSwap(cfg: Setup, s: Engine, ebuf: seq<Spm>, aggr: Pointer)
    requires cfg.Valid() && Core(cfg, s, false)
    requires EdgesOk(cfg, ebuf, s.chunkCnt, s.confirmed, s.edgesOut)
    requires PointersOk(cfg, ebuf, aggr.vertex, s.ready.vertex, s.confirmed)
    requires InputsOk(cfg, ebuf, s.inbuf, s.inputsOut, false)
    ensures Core(cfg, s.(ebuf := ebuf, aggr := aggr), false)
  {
  }

  lemma OpenChunkKeeps(cfg: Setup, s: Engine, e: nat)
    requires cfg.Valid() && Core(cfg, s, false) && |s.ebuf| == 2 && e < 2
    requires !Has(s.ebuf, Draining) && s.ebuf[e].state == Ready && s.ebuf[e].chunkId == s.confirmed
    ensures Kept(cfg, s, OpenChunk(cfg, s, e))
    ensures Target(OpenChunk(cfg, s, e).ebuf, Draining) == e
    ensures OpenChunk(cfg, s, e).inbuf == s.inbuf && OpenChunk(cfg, s, e).ebuf[e].partCnt == 0 && OpenChunk(cfg, s, e).ebuf[e].parts != []
  {
    hide *;
    var eb, aggr := OpenChunkIs(cfg, s, e);
    SwapParts(cfg, s, false);
    OpenEdges(cfg, s.ebuf, s.chunkCnt, s.confirmed, s.edgesOut, e, eb);
    OpenTarget(s.ebuf, e, eb);
    OpenBuffers(cfg, s.ebuf, s.inbuf, s.aggr.vertex, s.ready.vertex, s.confirmed, s.inputsOut, e, eb);
    OpenRest(cfg, eb, s.inbuf);
    OpenToDo(cfg, s.ebuf, s.inbuf, s.confirmed, e, eb);
    PointerSwap(cfg, s, s.ebuf[e := eb], aggr);
    KeptBy(cfg, s, s.(ebuf := s.ebuf[e := eb], aggr := aggr));
  }

  // ---------------------------------------------------------- binding a part

  // The input buffer that receives the part, and the edge buffer that counts it.
  predicate Binds(eb: Spm, e: nat, b: Spm, eb': Spm, b': Spm) {
    && 0 <= eb.partCnt < |eb.parts| && eb' == eb.(partCnt := eb.partCnt + 1)
    && b'.state == Filling && b'.ebuf == e && b'.partId == eb.partCnt && b'.edges == eb.parts[eb.partCnt] && b'.start == eb.start
    && b'.end == LastEnd(b'.edges, eb.start, eb.end) && b'.nonEmpty == NonEmptyRows(b'.edges) && b'.featureCnt == 0
    && b'.events == |Sources(b'.edges)|
  }

  lemma BindIs(s: Engine, i: nat, e: nat) returns (eb: Spm, b: Spm)
    requires i < |s.inbuf| && e < |s.ebuf| && 0 <= s.ebuf[e].partCnt < |s.ebuf[e].parts|
    requires s.inbuf[i].state == Idle && RestOk(s.inbuf[i])
    ensures Binds(s.ebuf[e], e, s.inbuf[i], eb, b)
    ensures BindPart(s, i, e) == s.(ebuf := s.ebuf[e := eb], inbuf := s.inbuf[i := b], inputsOut := s.inputsOut + b.events)
    ensures b.events >= 0
  {
    var s' := BindPart(s, i, e);
    eb, b := s'.ebuf[e], s'.inbuf[i];
  }

  lemma PartRows(cfg: Setup, eb: Spm, confirmed: nat, chunkCnt: nat, part: Rows)
    requires cfg.Valid() && chunkCnt <= |cfg.chunks| && EdgeBufOk(cfg, eb, confirmed, chunkCnt) && eb.state != Idle
    requires 0 <= eb.partCnt < |eb.parts| && part == eb.parts[eb.partCnt]
    ensures LastEnd(part, eb.start, eb.end) <= eb.start + |part|
  {
    LastEndMeaning(part, eb.start, eb.end);
  }

  lemma BindPair(cfg: Setup, eb: Spm, e: nat, b: Spm, o: Spm, eb': Spm, b': Spm)
    requires PairOk(cfg, eb, e, b, o, false) && b.state == Idle && o.state != Filling && Binds(eb, e, b, eb', b')
    requires LastEnd(b'.edges, eb.start, eb.end) <= eb.start + |b'.edges| && 0 <= PartsDone(eb) <= eb.partCnt
    ensures PairOk(cfg, eb', e, b', o, true)
  {
  }

  lemma BindEdges(cfg: Setup, ebuf: seq<Spm>, chunkCnt: nat, confirmed: nat, edgesOut: nat, e: nat, eb: Spm)
    requires cfg.Valid() && EdgesOk(cfg, ebuf, chunkCnt, confirmed, edgesOut)
    requires e < 2 && ebuf[e].state == Draining && 0 <= ebuf[e].partCnt < |ebuf[e].parts| && eb == ebuf[e].(partCnt := ebuf[e].partCnt + 1)
    ensures EdgesOk(cfg, ebuf[e := eb], chunkCnt, confirmed, edgesOut)
    ensures Target(ebuf, Draining) == Target(ebuf[e := eb], Draining) == e
    ensures EdgeBufOk(cfg, ebuf[e], confirmed, chunkCnt) && 0 <= PartsDone(ebuf[e]) <= ebuf[e].partCnt
  {
    DrainingEdge(cfg, ebuf, chunkCnt, confirmed, edgesOut, e);
    TargetOfTwo(ebuf[e := eb], Draining);
  }

  lemma BindInputs(cfg: Setup, ebuf: seq<Spm>, inbuf: seq<Spm>, inputsOut: nat, e: nat, eb: Spm, i: nat, b: Spm)
    requires InputsOk(cfg, ebuf, inbuf, inputsOut, false) && i < 2 && inbuf[i].state == Idle && inbuf[1 - i].state != Filling
    requires e < 2 && Target(ebuf, Draining) == Target(ebuf[e := eb], Draining) == e && Binds(ebuf[e], e, inbuf[i], eb, b)
    requires LastEnd(b.edges, ebuf[e].start, ebuf[e].end) <= ebuf[e].start + |b.edges| && 0 <= PartsDone(ebuf[e]) <= ebuf[e].partCnt
    ensures InputsOk(cfg, ebuf[e := eb], inbuf[i := b], inputsOut + b.events, true)
  {
    if i == 1 {
      PairTurned(cfg, ebuf[e], e, inbuf[0], inbuf[1], false);
    }
    BindPair(cfg, ebuf[e], e, inbuf[i], inbuf[1 - i], eb, b);
    InputsFromPair(cfg, ebuf[e := eb], inbuf, inputsOut + b.events, true, i, b);
  }

  lemma BindTarget(inbuf: seq<Spm>, i: nat, b: Spm)
    requires |inbuf| == 2 && i < 2 && inbuf[i].state != Draining && b.state != Draining
    ensures Target(inbuf[i := b], Draining) == Target(inbuf, Draining)
    ensures Target(inbuf, Draining) < 2 ==> inbuf[i := b][Target(inbuf, Draining)] == inbuf[Target(inbuf, Draining)]
    ensures forall p :: 0 <= p < 2 && inbuf[p].state == Draining ==> inbuf[i := b][p].state == Draining
  {
    TargetOfTwo(inbuf, Draining);
    TargetOfTwo(inbuf[i := b], Draining);
  }

  lemma BindPointers(cfg: Setup, ebuf: seq<Spm>, aggr: int, ready: int, confirmed: nat, e: nat, eb: Spm)
    requires cfg.Valid() && confirmed <= |cfg.chunks| && PointersOk(cfg, ebuf, aggr, ready, confirmed)
    requires e < |ebuf| && Target(ebuf, Draining) == Target(ebuf[e := eb], Draining) == e && eb == ebuf[e].(partCnt := eb.partCnt)
    ensures PointersOk(cfg, ebuf[e := eb], aggr, ready, confirmed)
  {
  }

  lemma BindRest(cfg: Setup, eb: Spm, eb': Spm, inbuf: seq<Spm>, inbuf': seq<Spm>)
    requires |inbuf| == |inbuf'| == 2 && eb' == eb.(partCnt := eb'.partCnt) && Target(inbuf', Draining) == Target(inbuf, Draining)
    requires Target(inbuf, Draining) < 2 ==> inbuf'[Target(inbuf, Draining)] == inbuf[Target(inbuf, Draining)]
    ensures RestOfChunk(cfg, eb', inbuf') == RestOfChunk(cfg, eb, inbuf)
  {
  }

  lemma BindEvents(cfg: Setup, inbuf: seq<Spm>, inbuf': seq<Spm>, simds: seq<Simd>)
    requires EventsOk(cfg, inbuf, simds) && |inbuf| == |inbuf'| == 2 && Target(inbuf', Draining) == Target(inbuf, Draining)
    requires Target(inbuf, Draining) < 2 ==> inbuf'[Target(inbuf, Draining)] == inbuf[Target(inbuf, Draining)]
    ensures EventsOk(cfg, inbuf', simds)
  {
  }

  lemma BuffersSwap(cfg: Setup, s: Engine, ebuf: seq<Spm>, inbuf: seq<Spm>, inputsOut: nat, mid: bool, mid': bool)
    requires cfg.Valid() && Core(cfg, s, mid)
    requires EdgesOk(cfg, ebuf, s.chunkCnt, s.confirmed, s.edgesOut)
    requires PointersOk(cfg, ebuf, s.aggr.vertex, s.ready.vertex, s.confirmed)
    requires InputsOk(cfg, ebuf, inbuf, inputsOut, mid')
    requires SimdsOk(cfg, s.ready.vertex, inbuf, s.simds) && EventsOk(cfg, inbuf, s.simds)
    ensures Core(cfg, s.(ebuf := ebuf, inbuf := inbuf, inputsOut := inputsOut), mid')
  {
  }

  lemma SimdParts(cfg: Setup, s: Engine, mid: bool)
    requires cfg.Valid() && Core(cfg, s, mid)
    ensures SimdsOk(cfg, s.ready.vertex, s.inbuf, s.simds) && EventsOk(cfg, s.inbuf, s.simds)
    ensures BagOk(s.simds, s.started, s.finished) && MacsOk(cfg, s.simds, s.started) && !s.failed
  {
  }

  lemma BindsShape(eb: Spm, e: nat, b: Spm, eb': Spm, b': Spm)
    requires Binds(eb, e, b, eb', b')
    ensures eb' == eb.(partCnt := eb.partCnt + 1) && eb' == eb.(partCnt := eb'.partCnt) && b'.state == Filling
    ensures 0 <= eb.partCnt < |eb.parts| && b'.edges == eb.parts[eb.partCnt] && b'.events >= 0
  {
  }

  lemma RestsOk(cfg: Setup, ebuf: seq<Spm>, inbuf: seq<Spm>, inputsOut: nat, mid: bool, i: nat)
    requires InputsOk(cfg, ebuf, inbuf, inputsOut, mid) && i < 2
    ensures RestOk(inbuf[i])
  {
  }

  // Between ticks' ends: the invariant of the middle of a tick.
  ghost predicate KeptMid(cfg: Setup, s: Engine, s': Engine)
    requires cfg.Valid()
  {
    Core(cfg, s', true) && SameToDo(cfg, s, s')
  }

  lemma KeptMidBy(cfg: Setup, s: Engine, s': Engine)
    requires cfg.Valid() && Core(cfg, s', true) && s'.started == s.started
    requires ToDo(cfg, s'.ebuf, s'.inbuf, s'.confirmed) == ToDo(cfg, s.ebuf, s.inbuf, s.confirmed)
    ensures KeptMid(cfg, s, s')
  {
  }

  lemma BindPartKeeps(cfg: Setup, s: Engine, i: nat, e: nat)
    requires cfg.Valid() && Core(cfg, s, false) && |s.ebuf| == |s.inbuf| == 2 && e < 2 && i < 2
    requires s.ebuf[e].state == Draining && 0 <= s.ebuf[e].partCnt < |s.ebuf[e].parts|
    requires s.inbuf[i].state == Idle && s.inbuf[1 - i].state != Filling
    ensures KeptMid(cfg, s, BindPart(s, i, e))
  {
    hide *;
    SwapParts(cfg, s, false);
    SimdParts(cfg, s, false);
    RestsOk(cfg, s.ebuf, s.inbuf, s.inputsOut, false, i);
    var eb, b := BindIs(s, i, e);
    var ebuf', inbuf' := s.ebuf[e := eb], s.inbuf[i := b];
    BindsShape(s.ebuf[e], e, s.inbuf[i], eb, b);
    BindEdges(cfg, s.ebuf, s.chunkCnt, s.confirmed, s.edgesOut, e, eb);
    PartRows(cfg, s.ebuf[e], s.confirmed, s.chunkCnt, b.edges);
    BindPointers(cfg, s.ebuf, s.aggr.vertex, s.ready.vertex, s.confirmed, e, eb);
    BindInputs(cfg, s.ebuf, s.inbuf, s.inputsOut, e, eb, i, b);
    BindTarget(s.inbuf, i, b);
    BindRest(cfg, s.ebuf[e], eb, s.inbuf, inbuf');
    SameChunkToDo(cfg, s.ebuf, ebuf', s.inbuf, inbuf', s.confirmed, e);
    BindEvents(cfg, s.inbuf, inbuf', s.simds);
    SimdsKeepInbuf(cfg, s.ready.vertex, s.inbuf, inbuf', s.simds);
    BuffersSwap(cfg, s, ebuf', inbuf', s.inputsOut + b.events, false, true);
    KeptMidBy(cfg, s, s.(ebuf := ebuf', inbuf := inbuf', inputsOut := s.inputsOut + b.events));
  }

  // ------------------------------------------------------------- FillInput

  datatype Choice = NoPart | GoOn(i: nat, e: nat) | Open(i: nat, e: nat)

  predicate CanBind(s: Engine, i: nat, e: nat) {
    && |s.ebuf| == |s.inbuf| == 2 && i < 2 && e < 2
    && s.inbuf[i].state == Idle && s.inbuf[1 - i].state != Filling
  }

  lemma FillInputCase(cfg: Setup, s: Engine, will: bool) returns (c: Choice)
    requires cfg.Valid() && |s.ebuf| == |s.inbuf| == 2
    ensures match c
            case NoPart => FillInput(cfg, s, will) == s
            case GoOn(i, e) =>
              CanBind(s, i, e) && s.ebuf[e].state == Draining && 0 <= s.ebuf[e].partCnt < |s.ebuf[e].parts|
              && FillInput(cfg, s, will) == BindPart(s, i, e)
            case Open(i, e) =>
              && CanBind(s, i, e) && !Has(s.ebuf, Draining) && s.ebuf[e].state == Ready
              && (forall j :: 0 <= j < |s.ebuf| && s.ebuf[j].state == Ready ==> s.ebuf[e].start <= s.ebuf[j].start)
              && (0 <= s.ebuf[e].partCnt < |s.ebuf[e].parts| ==>
                    FillInput(cfg, s, will) == BindPart(OpenChunk(cfg, s, e), i, e))
  {
    TargetOfTwo(s.inbuf, Idle);
    TargetOfTwo(s.inbuf, Filling);
    if !Has(s.inbuf, Idle) || Has(s.inbuf, Filling) {
      return NoPart;
    }
    var i := Target(s.inbuf, Idle);
    if Has(s.ebuf, Draining) {
      var e := Target(s.ebuf, Draining);
      return if 0 <= s.ebuf[e].partCnt < |s.ebuf[e].parts| then GoOn(i, e) else NoPart;
    }
    if Has(s.ebuf, Ready) && will {
      return Open(i, FirstReadyChunk(s.ebuf));
    }
    return NoPart;
  }

  lemma MidToo(cfg: Setup, s: Engine)
    requires cfg.Valid() && Core(cfg, s, false)
    ensures KeptMid(cfg, s, s)
  {
  }

  lemma KeptThenMid(cfg: Setup, s: Engine, s1: Engine, s2: Engine)
    requires cfg.Valid() && Kept(cfg, s, s1) && KeptMid(cfg, s1, s2)
    ensures KeptMid(cfg, s, s2)
  {
  }

  lemma KeptIsCore(cfg: Setup, s: Engine, s': Engine)
    requires cfg.Valid() && Kept(cfg, s, s')
    ensures Core(cfg, s', false)
  {
  }

  lemma OldestIsNext(cfg: Setup, s: Engine, e: nat)
    requires cfg.Valid() && Core(cfg, s, false) && |s.ebuf| == 2
    requires !Has(s.ebuf, Draining) && e < 2 && s.ebuf[e].state == Ready
    requires forall j :: 0 <= j < |s.ebuf| && s.ebuf[j].state == Ready ==> s.ebuf[e].start <= s.ebuf[j].start
    ensures s.ebuf[e].chunkId == s.confirmed && s.ebuf[e].partCnt == 0 && s.ebuf[e].parts != []
  {
    ReadyIsNext(cfg, s.ebuf, s.chunkCnt, s.confirmed, s.edgesOut, e);
  }

  lemma DrainingAt(bufs: seq<Spm>, e: nat)
    requires Target(bufs, Draining) == e && e < |bufs|
    ensures bufs[e].state == Draining
  {
  }

  lemma OpenThenBind(cfg: Setup, s: Engine, i: nat, e: nat)
    requires cfg.Valid() && Core(cfg, s, false) && CanBind(s, i, e)
    requires !Has(s.ebuf, Draining) && s.ebuf[e].state == Ready && s.ebuf[e].chunkId == s.confirmed
    ensures |OpenChunk(cfg, s, e).inbuf| == |OpenChunk(cfg, s, e).ebuf| == 2
    ensures 0 <= OpenChunk(cfg, s, e).ebuf[e].partCnt < |OpenChunk(cfg, s, e).ebuf[e].parts|
    ensures KeptMid(cfg, s, BindPart(OpenChunk(cfg, s, e), i, e))
  {
    OpenChunkKeeps(cfg, s, e);
    var s1 := OpenChunk(cfg, s, e);
    hide *;
    KeptIsCore(cfg, s, s1);
    TwoBuffers(cfg, s1, false);
    DrainingAt(s1.ebuf, e);
    BindPartKeeps(cfg, s1, i, e);
    KeptThenMid(cfg, s, s1, BindPart(s1, i, e));
  }

  lemma FillInputKeeps(cfg: Setup, s: Engine, will: bool)
    requires cfg.Valid() && Core(cfg, s, false)
    ensures KeptMid(cfg, s, FillInput(cfg, s, will))
  {
    TwoBuffers(cfg, s, false);
    var c := FillInputCase(cfg, s, will);
    match c {
      case NoPart => MidToo(cfg, s);
      case GoOn(i, e) => BindPartKeeps(cfg, s, i, e);
      case Open(i, e) =>
        OldestIsNext(cfg, s, e);
        OpenThenBind(cfg, s, i, e);
    }
  }

  // No edge buffer becomes idle by filling an input buffer.
  lemma FillInputBusy(cfg: Setup, s: Engine, will: bool)
    requires cfg.Valid() && |s.ebuf| == |s.inbuf| == 2 && !AllIdle(s.ebuf) && !FillInput(cfg, s, will).failed
    ensures !AllIdle(FillInput(cfg, s, will).ebuf)
  {
    var c := FillInputCase(cfg, s, will);
    var k :| 0 <= k < |s.ebuf| && s.ebuf[k].state != Idle;
    NotAllIdle(FillInput(cfg, s, will).ebuf, k);
  }
}
