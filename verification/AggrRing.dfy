// Where the engine's running sums live: a job writes back to the place it read
// from, and a confirmed chunk moves the ready pointer to where aggregation stands.
module AggrRing {
  import opened EdgePartition
  import opened AggrSpec
  import opened AggrTasks
  import opened AggrInvariant
  import opened AggrSimds
  import opened AggrParts
  import opened AggrFill
  import opened AggrFeed
  import opened AggrTheorems

  predicate PlaceOk(cfg: Setup, ready: Pointer, d: Simd)
    requires 0 < cfg.capacity
  {
    d.state == Computing ==> d.readAddr == WriteAddr(cfg, ready, d.vertex, d.feature)
  }

  predicate PlacesOk(cfg: Setup, ready: Pointer, simds: seq<Simd>)
    requires 0 < cfg.capacity
  {
    forall i :: 0 <= i < |simds| ==> PlaceOk(cfg, ready, simds[i])
  }

  predicate AggrOk(cfg: Setup, ebuf: seq<Spm>, aggr: Pointer, ready: Pointer)
    requires 0 < cfg.capacity
  {
    aggr == if Has(ebuf, Draining)
            then (var eb := ebuf[Target(ebuf, Draining)]; Advance(cfg, ready, eb.end - eb.start)) else ready
  }

  predicate Ring(cfg: Setup, s: Engine)
    requires 0 < cfg.capacity
  {
    PlacesOk(cfg, s.ready, s.simds) && AggrOk(cfg, s.ebuf, s.aggr, s.ready)
  }

  lemma HasCapacity(cfg: Setup)
    requires cfg.Valid()
    ensures 0 < cfg.capacity
  {
  }

  lemma PlaceSet(cfg: Setup, ready: Pointer, simds: seq<Simd>, i: nat, d: Simd)
    requires 0 < cfg.capacity && PlacesOk(cfg, ready, simds) && i < |simds| && PlaceOk(cfg, ready, d)
    ensures PlacesOk(cfg, ready, simds[i := d])
  {
  }

  lemma FreePlace(cfg: Setup, ready: Pointer, d: Simd)
    requires 0 < cfg.capacity && d.state != Computing
    ensures PlaceOk(cfg, ready, d)
  {
  }

  lemma FreePlaces(cfg: Setup, ready: Pointer, simds: seq<Simd>)
    requires 0 < cfg.capacity && Busy(simds) == 0
    ensures PlacesOk(cfg, ready, simds)
  {
    NoneBusy(simds);
  }

  lemma AggrSame(cfg: Setup, ebuf: seq<Spm>, ebuf': seq<Spm>, aggr: Pointer, ready: Pointer)
    requires 0 < cfg.capacity && AggrOk(cfg, ebuf, aggr, ready) && |ebuf| == |ebuf'| && Target(ebuf', Draining) == Target(ebuf, Draining)
    requires Target(ebuf, Draining) < |ebuf| ==>
               var e := Target(ebuf, Draining); ebuf'[e].end - ebuf'[e].start == ebuf[e].end - ebuf[e].start
    ensures AggrOk(cfg, ebuf', aggr, ready)
  {
  }

  // ---------------------------------------------------------------- the SIMDs

  lemma TickPlace(cfg: Setup, ready: Pointer, d: Simd)
    requires 0 < cfg.capacity && PlaceOk(cfg, ready, d) && d.state == Computing && d.depth > 1
    ensures PlaceOk(cfg, ready, d.ClockTick())
  {
  }

  lemma RunsOnRing(cfg: Setup, s: Engine, i: nat)
    requires cfg.Valid() && Core(cfg, s, false) && Ring(cfg, s) && i < |s.simds|
    requires s.simds[i].state == Computing && s.simds[i].depth > 1
    ensures Ring(cfg, StepSimd(cfg, s, i))
  {
    TickPlace(cfg, s.ready, s.simds[i]);
    PlaceSet(cfg, s.ready, s.simds, i, s.simds[i].ClockTick());
    RunsOn(cfg, s, i);
  }

  lemma JobRing(cfg: Setup, s: Engine, i: nat)
    requires 0 < cfg.capacity && Ring(cfg, s) && i < |s.simds|
    ensures PlacesOk(cfg, s.ready, AfterJob(s, i).simds)
  {
    FreePlace(cfg, s.ready, Released(s.simds[i]));
    PlaceSet(cfg, s.ready, s.simds, i, Released(s.simds[i]));
  }

  lemma PartRing(cfg: Setup, s: Engine, i: nat, p: nat, e: nat, eb: Spm)
    requires 0 < cfg.capacity && Ring(cfg, s) && i < |s.simds| && p < |s.inbuf| && |s.ebuf| == 2 && e < 2
    requires Target(s.ebuf, Draining) == e && eb == s.ebuf[e].(events := eb.events) && eb.state == Draining
    ensures Ring(cfg, AfterPart(s, i, p).(ebuf := s.ebuf[e := eb]))
  {
    JobRing(cfg, s, i);
    KeepsTarget(s.ebuf, e, eb);
    AggrSame(cfg, s.ebuf, s.ebuf[e := eb], s.aggr, s.ready);
  }

  lemma ChunkRing(cfg: Setup, s: Engine, i: nat, p: nat, e: nat, idle: Spm, ready: Pointer)
    requires 0 < cfg.capacity && Ring(cfg, s) && i < |s.simds| && p < |s.inbuf| && e < |s.ebuf|
    requires Target(s.ebuf, Draining) == e && !Has(s.ebuf[e := idle], Draining) && Busy(AfterJob(s, i).simds) == 0
    requires ready == Advance(cfg, s.ready, s.ebuf[e].end - s.ebuf[e].start)
    ensures Ring(cfg, AfterPart(s, i, p).(ebuf := s.ebuf[e := idle], confirmed := s.confirmed + 1, ready := ready))
  {
    FreePlaces(cfg, ready, AfterJob(s, i).simds);
  }

  lemma AfterPartSimds(s: Engine, i: nat, p: nat)
    requires i < |s.simds| && p < |s.inbuf|
    ensures AfterPart(s, i, p).ready == s.ready && AfterPart(s, i, p).simds == AfterJob(s, i).simds
  {
  }

  lemma JobEndsRing(cfg: Setup, s: Engine, i: nat, p: nat, s': Engine)
    requires cfg.Valid() && Core(cfg, s, false) && Ring(cfg, s) && i < |s.simds|
    requires s.simds[i].state == Computing && s.simds[i].depth <= 1
    requires p < 2 && s.inbuf[p].state == Draining && s.inbuf[p].events == 1
    requires |s.ebuf| == |s.inbuf| == 2 && s' == ConfirmPart(cfg, AfterPart(s, i, p), s.inbuf[p].ebuf)
    ensures Ring(cfg, s')
  {
    hide *;
    HasCapacity(cfg);
    var e := DrainsFrom(cfg, s, p);
    AfterPartIs(s, i, p);
    var eb := s.ebuf[e].(events := s.ebuf[e].events - 1);
    if eb.events != 0 {
      ConfirmGoesOn(cfg, AfterPart(s, i, p), e, eb);
      PartRing(cfg, s, i, p, e, eb);
    } else {
      var idle, ready := ConfirmEnds(cfg, AfterPart(s, i, p), e);
      AfterPartSimds(s, i, p);
      ChunkEnd(cfg, s, i, p, e, idle);
      LastJob(cfg, s, i, p);
      ChunkRing(cfg, s, i, p, e, idle, ready);
    }
  }

  lemma StepSimdRing(cfg: Setup, s: Engine, i: nat)
    requires cfg.Valid() && Core(cfg, s, false) && Ring(cfg, s) && i < |s.simds|
    ensures Ring(cfg, StepSimd(cfg, s, i))
  {
    RunningFacts(cfg, s, i);
    if s.simds[i].state == Free {
      RestsOn(cfg, s, i);
    } else if s.simds[i].depth > 1 {
      RunsOnRing(cfg, s, i);
    } else {
      var p := s.simds[i].inbuf;
      var b := s.inbuf[p].(events := s.inbuf[p].events - 1);
      if b.events != 0 {
        WriteBackGoesOn(cfg, s, i, p, b);
        JobRing(cfg, s, i);
      } else {
        WriteBackEnds(cfg, s, i, p);
        JobEndsRing(cfg, s, i, p, StepSimd(cfg, s, i));
      }
    }
  }

  lemma {:induction false} StepSimdsRing(cfg: Setup, s: Engine, n: nat)
    requires cfg.Valid() && Core(cfg, s, false) && Ring(cfg, s) && n <= |s.simds|
    ensures Ring(cfg, StepSimds(cfg, s, n))
  {
    hide *;
    StepSimdsUnfold(cfg, s, n);
    if n > 0 {
      StepSimdsKeep(cfg, s, n - 1);
      var s1 := StepSimds(cfg, s, n - 1);
      KeptRuns(cfg, s, s1);
      StepSimdsRing(cfg, s, n - 1);
      StepSimdRing(cfg, s1, n - 1);
    }
  }

  // ----------------------------------------------------------------- the flow

  lemma FillEdgeRing(cfg: Setup, s: Engine)
    requires cfg.Valid() && Core(cfg, s, false) && Ring(cfg, s)
    ensures Ring(cfg, FillEdge(cfg, s))
  {
    var fills, i := FillEdgeCase(cfg, s);
    if fills {
      FillEdgeTarget(s.ebuf, i, NextChunk(cfg, s, i));
      AggrSame(cfg, s.ebuf, s.ebuf[i := NextChunk(cfg, s, i)], s.aggr, s.ready);
    }
  }

  lemma BindRing(cfg: Setup, s: Engine, i: nat, e: nat)
    requires cfg.Valid() && Core(cfg, s, false) && Ring(cfg, s) && |s.ebuf| == |s.inbuf| == 2 && e < 2 && i < 2
    requires s.ebuf[e].state == Draining && 0 <= s.ebuf[e].partCnt < |s.ebuf[e].parts|
    ensures Ring(cfg, BindPart(s, i, e))
  {
    hide *;
    var eb := s.ebuf[e].(partCnt := s.ebuf[e].partCnt + 1);
    CoreEdges(cfg, s);
    DrainingEdge(cfg, s.ebuf, s.chunkCnt, s.confirmed, s.edgesOut, e);
    KeepsTarget(s.ebuf, e, eb);
    HasCapacity(cfg);
    RingHas(cfg, s);
    AggrSame(cfg, s.ebuf, s.ebuf[e := eb], s.aggr, s.ready);
    BindKeepsPlaces(cfg, s, i, e);
  }

  lemma CoreEdges(cfg: Setup, s: Engine)
    requires cfg.Valid() && Core(cfg, s, false)
    ensures EdgesOk(cfg, s.ebuf, s.chunkCnt, s.confirmed, s.edgesOut)
  {
  }

  lemma RingHas(cfg: Setup, s: Engine)
    requires 0 < cfg.capacity && Ring(cfg, s)
    ensures AggrOk(cfg, s.ebuf, s.aggr, s.ready)
  {
  }

  lemma BindKeepsPlaces(cfg: Setup, s: Engine, i: nat, e: nat)
    requires 0 < cfg.capacity && Ring(cfg, s) && i < |s.inbuf| && e < |s.ebuf| && 0 <= s.ebuf[e].partCnt < |s.ebuf[e].parts|
    requires AggrOk(cfg, s.ebuf[e := s.ebuf[e].(partCnt := s.ebuf[e].partCnt + 1)], s.aggr, s.ready)
    ensures Ring(cfg, BindPart(s, i, e))
  {
    hide AggrOk, PlacesOk;
  }

  lemma OpenRing(cfg: Setup, s: Engine, e: nat)
    requires cfg.Valid() && Ring(cfg, s) && |s.ebuf| == 2 && e < 2 && !Has(s.ebuf, Draining)
    ensures Ring(cfg, OpenChunk(cfg, s, e))
  {
    var eb, aggr := OpenChunkIs(cfg, s, e);
    OpenTarget(s.ebuf, e, eb);
  }

  lemma FillInputRing(cfg: Setup, s: Engine, will: bool)
    requires cfg.Valid() && Core(cfg, s, false) && Ring(cfg, s)
    ensures Ring(cfg, FillInput(cfg, s, will))
  {
    TwoBuffers(cfg, s, false);
    var c := FillInputCase(cfg, s, will);
    match c {
      case NoPart =>
      case GoOn(i, e) => BindRing(cfg, s, i, e);
      case Open(i, e) =>
        OldestIsNext(cfg, s, e);
        OpenBindRing(cfg, s, i, e);
    }
  }

  lemma OpenBindRing(cfg: Setup, s: Engine, i: nat, e: nat)
    requires cfg.Valid() && Core(cfg, s, false) && Ring(cfg, s) && CanBind(s, i, e)
    requires !Has(s.ebuf, Draining) && s.ebuf[e].state == Ready && s.ebuf[e].chunkId == s.confirmed
    ensures |OpenChunk(cfg, s, e).inbuf| == |OpenChunk(cfg, s, e).ebuf| == 2
    ensures 0 <= OpenChunk(cfg, s, e).ebuf[e].partCnt < |OpenChunk(cfg, s, e).ebuf[e].parts|
    ensures Ring(cfg, BindPart(OpenChunk(cfg, s, e), i, e))
  {
    OpenThenBind(cfg, s, i, e);
    OpenChunkKeeps(cfg, s, e);
    var s1 := OpenChunk(cfg, s, e);
    OpenRing(cfg, s, e);
    hide *;
    KeptIsCore(cfg, s, s1);
    DrainingAt(s1.ebuf, e);
    BindRing(cfg, s1, i, e);
  }

  lemma AssignRing(cfg: Setup, s: Engine, p: nat, k: nat)
    requires cfg.Valid() && Ring(cfg, s) && p < |s.inbuf| && k < |s.simds| && AtRow(s.inbuf[p])
    ensures Ring(cfg, Assign(cfg, s, p, k))
  {
    if s.inbuf[p].vertexPtr >= s.ready.vertex {
      var d := Assign(cfg, s, p, k).simds[k];
      assert PlaceOk(cfg, s.ready, d);
      PlaceSet(cfg, s.ready, s.simds, k, d);
    }
  }

  lemma {:induction false} FeedRing(cfg: Setup, s: Engine, p: nat)
    requires cfg.Valid() && Core(cfg, s, false) && Ring(cfg, s) && p < 2 && |s.inbuf| == 2 && s.inbuf[p].state == Draining
    ensures Ring(cfg, Feed(cfg, s, p))
    decreases s.inbuf[p].end - s.inbuf[p].vertexPtr, FreeCount(s.simds)
  {
    hide *;
    HasCapacity(cfg);
    KeptNotFailed(cfg, s, false);
    var k := FreeSimd(s.simds);
    var b := s.inbuf[p];
    FeedUnfold(cfg, s, p);
    if k < |s.simds| && b.vertexPtr < b.end {
      DrainingRow(cfg, s, p);
      if RowAt(b) == [] {
        var b' := b.(vertexPtr := b.vertexPtr + 1);
        SkipMoves(cfg, b);
        SkipKeeps(cfg, s, p, b');
        KeptIsCore(cfg, s, s.(inbuf := s.inbuf[p := b']));
        SameRing(cfg, s, s.(inbuf := s.inbuf[p := b']));
        FeedRing(cfg, s.(inbuf := s.inbuf[p := b']), p);
      } else {
        AssignRound(cfg, s, p, k);
        AssignRing(cfg, s, p, k);
        FeedRing(cfg, Assign(cfg, s, p, k), p);
      }
    }
  }

  lemma SameRing(cfg: Setup, s: Engine, s': Engine)
    requires 0 < cfg.capacity && Ring(cfg, s) && s'.simds == s.simds && s'.ready == s.ready && s'.aggr == s.aggr && s'.ebuf == s.ebuf
    ensures Ring(cfg, s')
  {
  }

  lemma DispatchRing(cfg: Setup, s: Engine)
    requires cfg.Valid() && Core(cfg, s, true) && Ring(cfg, s)
    ensures Ring(cfg, Dispatch(cfg, s))
  {
    KeptNotFailed(cfg, s, true);
    if Has(s.inbuf, Draining) {
      MidSettles(cfg, s);
      FeedRing(cfg, s, Target(s.inbuf, Draining));
    } else if Has(s.inbuf, Ready) {
      DispatchReadyRing(cfg, s, Target(s.inbuf, Ready));
    }
  }

  lemma DispatchReadyRing(cfg: Setup, s: Engine, p: nat)
    requires cfg.Valid() && Core(cfg, s, true) && Ring(cfg, s)
    requires |s.inbuf| == 2 && p < 2 && !Has(s.inbuf, Draining) && p == Target(s.inbuf, Ready)
    ensures Ring(cfg, Dispatch(cfg, s))
  {
    var b, s1 := ReadyDispatches(cfg, s, p);
    SameRing(cfg, s, s1);
    hide *;
    StartKeeps(cfg, s, p, b);
    KeptIsCore(cfg, s, s1);
    FeedRing(cfg, s1, p);
  }

  lemma DataFlowRing(cfg: Setup, s: Engine, will: bool)
    requires cfg.Valid() && Core(cfg, s, false) && Ring(cfg, s) && !s.isDone && s.chunkCnt <= |cfg.chunks|
    ensures Ring(cfg, GenDataFlow(cfg, s, will))
  {
    hide *;
    FillEdgeKeeps(cfg, s);
    FillEdgeRing(cfg, s);
    var s1 := FillEdge(cfg, s);
    KeptIsCore(cfg, s, s1);
    FillInputKeeps(cfg, s1, will);
    FillInputRing(cfg, s1, will);
    var s2 := FillInput(cfg, s1, will);
    KeptMidIsCore(cfg, s1, s2);
    DispatchRing(cfg, s2);
    DataFlowIs(cfg, s, will);
  }

  lemma NotedRing(cfg: Setup, s: Engine)
    requires 0 < cfg.capacity && Ring(cfg, s)
    ensures Ring(cfg, NoteDone(s))
  {
  }

  lemma TickRing(cfg: Setup, s: Engine, will: bool)
    requires cfg.Valid() && Inv(cfg, s) && Ring(cfg, s) && s.chunkCnt <= |cfg.chunks|
    ensures Ring(cfg, Tick(cfg, s, will))
  {
    hide *;
    HasCapacity(cfg);
    if s.isDone {
      DoneTick(cfg, s, will);
    } else {
      InvParts(cfg, s);
      var s1 := StepSimds(cfg, s, |s.simds|);
      StepSimdsKeep(cfg, s, |s.simds|);
      StepSimdsRing(cfg, s, |s.simds|);
      StepSimdsFrame(cfg, s, |s.simds|);
      KeptRuns(cfg, s, s1);
      DataFlowKeeps(cfg, s1, will);
      DataFlowRing(cfg, s1, will);
      FlowedFacts(cfg, s1, GenDataFlow(cfg, s1, will));
      TickIs(cfg, s, will);
      NotedRing(cfg, GenDataFlow(cfg, s1, will));
    }
  }

  lemma EdgeReturnRing(cfg: Setup, s: Engine)
    requires cfg.Valid() && Core(cfg, s, false) && Ring(cfg, s) && s.edgesOut > 0
    ensures Ring(cfg, ReturnEdge(s))
  {
    var i := Target(s.ebuf, Filling);
    EdgeReturns(cfg, s.ebuf, s.chunkCnt, s.confirmed, s.edgesOut, i);
    ReturnEdgeIs(s, i);
    var eb := s.ebuf[i].(events := 0).SwitchState(Ready);
    FillEdgeTarget(s.ebuf, i, eb);
    AggrSame(cfg, s.ebuf, s.ebuf[i := eb], s.aggr, s.ready);
  }

  lemma InputReturnRing(cfg: Setup, s: Engine)
    requires 0 < cfg.capacity && Ring(cfg, s) && s.inputsOut > 0
    ensures Ring(cfg, ReturnInput(s))
  {
  }

  lemma StepRing(cfg: Setup, s: Engine, op: Op)
    requires cfg.Valid() && Inv(cfg, s) && Ring(cfg, s) && s.chunkCnt <= |cfg.chunks|
    ensures Ring(cfg, Step(cfg, s, op))
  {
    hide *;
    HasCapacity(cfg);
    InvParts(cfg, s);
    StepIs(cfg, s, op);
    match op {
      case OpTick(will) => TickRing(cfg, s, will);
      case OpAggr => SameRing(cfg, s, s.(eventIn := s.eventIn + 1));
      case OpEdge =>
        if s.edgesOut > 0 {
          EdgeReturnRing(cfg, s);
        }
      case OpInput =>
        if s.inputsOut > 0 {
          InputReturnRing(cfg, s);
        }
    }
  }

  lemma InitRing(cfg: Setup, numSimds: nat)
    requires cfg.Valid()
    ensures Ring(cfg, Init(cfg, numSimds))
  {
    NoneDraining(Init(cfg, numSimds).ebuf);
  }

  lemma {:induction false} RunRing(cfg: Setup, numSimds: nat, ops: seq<Op>)
    requires cfg.Valid()
    ensures Ring(cfg, Run(cfg, Init(cfg, numSimds), ops))
  {
    if ops == [] {
      InitRing(cfg, numSimds);
    } else {
      RunInv(cfg, numSimds, ops[..|ops| - 1]);
      RunRing(cfg, numSimds, ops[..|ops| - 1]);
      StepRing(cfg, Run(cfg, Init(cfg, numSimds), ops[..|ops| - 1]), ops[|ops| - 1]);
    }
  }

  // On every run, a SIMD at work would write its result back to exactly the place
  // from which it read the running sum, and the two ring pointers are apart by the
  // draining chunk only.
  lemma WritesWhereItRead(cfg: Setup, numSimds: nat, ops: seq<Op>, i: nat)
    requires cfg.Valid() && i < |Run(cfg, Init(cfg, numSimds), ops).simds|
    ensures var s := Run(cfg, Init(cfg, numSimds), ops);
            && (s.simds[i].state == Computing ==>
                  s.simds[i].readAddr == WriteAddr(cfg, s.ready, s.simds[i].vertex, s.simds[i].feature))
            && (!Has(s.ebuf, Draining) ==> s.aggr == s.ready)
  {
    RunRing(cfg, numSimds, ops);
    assert PlaceOk(cfg, Run(cfg, Init(cfg, numSimds), ops).ready, Run(cfg, Init(cfg, numSimds), ops).simds[i]);
  }
}
