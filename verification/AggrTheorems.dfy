// The theorems about the aggregation engine, for every graph and every order and
// timing of memory replies.
module AggrTheorems {
  import opened EdgePartition
  import opened AggrSpec
  import opened AggrTasks
  import opened AggrInvariant
  import opened AggrSimds
  import opened AggrParts
  import opened AggrFill
  import opened AggrFeed

  // A finished engine holds nothing and has fetched every chunk.
  predicate DoneOk(cfg: Setup, s: Engine) {
    s.isDone ==> AllIdle(s.ebuf) && AllIdle(s.inbuf) && s.chunkCnt == |cfg.chunks| && s.eventIn == s.eventOut
  }

  ghost predicate Inv(cfg: Setup, s: Engine)
    requires cfg.Valid()
  {
    Core(cfg, s, false) && Order(cfg, s) && DoneOk(cfg, s)
  }

  // ---------------------------------------------------------------- one tick

  lemma NoneDraining(bufs: seq<Spm>)
    requires AllIdle(bufs)
    ensures !Has(bufs, Draining)
  {
    TargetIsIn(bufs, Draining);
  }

  lemma TargetIsIn(bufs: seq<Spm>, state: BufState)
    ensures Has(bufs, state) <==> exists i :: 0 <= i < |bufs| && bufs[i].state == state
  {
  }

  lemma IdleSimds(cfg: Setup, s: Engine)
    requires cfg.Valid() && Core(cfg, s, false) && AllIdle(s.inbuf)
    ensures forall i :: 0 <= i < |s.simds| ==> s.simds[i].state == Free
  {
    NoneDraining(s.inbuf);
    NoneBusy(s.simds);
    forall i | 0 <= i < |s.simds|
      ensures s.simds[i].state == Free
    {
      assert SimdOk(cfg, s.ready.vertex, s.inbuf, s.simds[i]);
    }
  }

  lemma {:induction false} AllRest(cfg: Setup, s: Engine, n: nat)
    requires cfg.Valid() && n <= |s.simds| && forall i :: 0 <= i < |s.simds| ==> s.simds[i].state == Free
    ensures StepSimds(cfg, s, n) == s
  {
    if n > 0 {
      AllRest(cfg, s, n - 1);
      RestsOn(cfg, s, n - 1);
    }
  }

  lemma {:induction false} StepSimdsFrame(cfg: Setup, s: Engine, n: nat)
    requires cfg.Valid() && n <= |s.simds|
    ensures var s' := StepSimds(cfg, s, n); s'.isDone == s.isDone && s'.chunkCnt == s.chunkCnt
  {
    if n > 0 {
      StepSimdsFrame(cfg, s, n - 1);
    }
  }

  lemma FillFrame(cfg: Setup, s: Engine, will: bool)
    requires cfg.Valid() && s.chunkCnt <= |cfg.chunks|
    ensures FillEdge(cfg, s).isDone == s.isDone && FillEdge(cfg, s).inbuf == s.inbuf
    ensures FillInput(cfg, s, will).isDone == s.isDone
  {
  }

  // What a tick does of the data flow, and what it leaves.
  ghost predicate Flowed(cfg: Setup, s: Engine, s': Engine)
    requires cfg.Valid()
  {
    && Core(cfg, s', false) && SameJobs(cfg, s, s') && s'.isDone == s.isDone
    && (s'.chunkCnt == |cfg.chunks| || !AllIdle(s'.ebuf))
  }

  lemma SameJobsVia(cfg: Setup, s: Engine, s1: Engine, s2: Engine, s3: Engine)
    requires cfg.Valid() && Kept(cfg, s, s1) && KeptMid(cfg, s1, s2) && KeptJobs(cfg, s2, s3)
    requires s2.isDone == s1.isDone == s.isDone && s2.chunkCnt == s1.chunkCnt
    requires s1.chunkCnt == |cfg.chunks| || !AllIdle(s2.ebuf)
    ensures Flowed(cfg, s, s3)
  {
  }

  lemma KeptMidIsCore(cfg: Setup, s: Engine, s': Engine)
    requires cfg.Valid() && KeptMid(cfg, s, s')
    ensures Core(cfg, s', true) && !s'.failed
  {
  }

  lemma DataFlowIs(cfg: Setup, s: Engine, will: bool)
    requires cfg.Valid() && s.chunkCnt <= |cfg.chunks| && !s.isDone && !FillInput(cfg, FillEdge(cfg, s), will).failed
    ensures GenDataFlow(cfg, s, will) == Dispatch(cfg, FillInput(cfg, FillEdge(cfg, s), will))
  {
  }

  lemma DataFlowKeeps(cfg: Setup, s: Engine, will: bool)
    requires cfg.Valid() && Core(cfg, s, false) && !s.isDone && s.chunkCnt <= |cfg.chunks|
    ensures Flowed(cfg, s, GenDataFlow(cfg, s, will))
  {
    hide *;
    FillEdgeKeeps(cfg, s);
    var s1 := FillEdge(cfg, s);
    FillFrame(cfg, s, will);
    KeptIsCore(cfg, s, s1);
    FillInputKeeps(cfg, s1, will);
    SwapParts(cfg, s1, false);
    FillFrame(cfg, s1, will);
    var s2 := FillInput(cfg, s1, will);
    KeptMidIsCore(cfg, s1, s2);
    if !AllIdle(s1.ebuf) {
      FillInputBusy(cfg, s1, will);
    }
    DispatchKeeps(cfg, s2);
    DataFlowIs(cfg, s, will);
    SameJobsVia(cfg, s, s1, s2, Dispatch(cfg, s2));
  }

  lemma DoneTick(cfg: Setup, s: Engine, will: bool)
    requires cfg.Valid() && Inv(cfg, s) && s.isDone && s.chunkCnt <= |cfg.chunks|
    ensures Tick(cfg, s, will) == s
  {
    IdleSimds(cfg, s);
    AllRest(cfg, s, |s.simds|);
  }

  lemma NotedInv(cfg: Setup, s: Engine, s1: Engine, s2: Engine)
    requires cfg.Valid() && Order(cfg, s) && Kept(cfg, s, s1) && Flowed(cfg, s1, s2) && !s2.isDone
    ensures Inv(cfg, NoteDone(s2))
  {
    JobsOrder(cfg, s, s1, s2);
    var s3 := NoteDone(s2);
    assert SameToDo(cfg, s2, s3);
  }

  lemma JobsOrder(cfg: Setup, s: Engine, s1: Engine, s2: Engine)
    requires cfg.Valid() && Order(cfg, s) && SameToDo(cfg, s, s1) && SameJobs(cfg, s1, s2)
    ensures Order(cfg, s2)
  {
  }

  lemma TickIs(cfg: Setup, s: Engine, will: bool)
    requires cfg.Valid() && s.chunkCnt <= |cfg.chunks|
    requires !StepSimds(cfg, s, |s.simds|).failed && !GenDataFlow(cfg, StepSimds(cfg, s, |s.simds|), will).failed
    ensures Tick(cfg, s, will) == NoteDone(GenDataFlow(cfg, StepSimds(cfg, s, |s.simds|), will))
  {
  }

  lemma FlowedFacts(cfg: Setup, s: Engine, s': Engine)
    requires cfg.Valid() && Flowed(cfg, s, s')
    ensures !s'.failed && s'.isDone == s.isDone
  {
  }

  lemma InvParts(cfg: Setup, s: Engine)
    requires cfg.Valid() && Inv(cfg, s)
    ensures Core(cfg, s, false) && Order(cfg, s) && DoneOk(cfg, s) && !s.failed
  {
  }

  lemma TickKeeps(cfg: Setup, s: Engine, will: bool)
    requires cfg.Valid() && Inv(cfg, s) && s.chunkCnt <= |cfg.chunks|
    ensures Inv(cfg, Tick(cfg, s, will))
  {
    hide *;
    if s.isDone {
      DoneTick(cfg, s, will);
    } else {
      InvParts(cfg, s);
      var s1 := StepSimds(cfg, s, |s.simds|);
      StepSimdsKeep(cfg, s, |s.simds|);
      StepSimdsFrame(cfg, s, |s.simds|);
      KeptIsCore(cfg, s, s1);
      KeptNotFailed(cfg, s1, false);
      DataFlowKeeps(cfg, s1, will);
      var s2 := GenDataFlow(cfg, s1, will);
      FlowedFacts(cfg, s1, s2);
      NotedInv(cfg, s, s1, s2);
      TickIs(cfg, s, will);
    }
  }

  // ------------------------------------------------------------------- runs

  lemma NothingOut(cfg: Setup, s: Engine)
    requires cfg.Valid() && Core(cfg, s, false) && AllIdle(s.ebuf) && AllIdle(s.inbuf)
    ensures s.edgesOut == 0 && s.inputsOut == 0
  {
  }

  lemma ReturnInv(cfg: Setup, s: Engine, s': Engine)
    requires cfg.Valid() && Inv(cfg, s) && Kept(cfg, s, s') && !s.isDone && !s'.isDone
    ensures Inv(cfg, s')
  {
    assert SameJobs(cfg, s, s');
    JobsOrder(cfg, s, s, s');
  }

  lemma AggrReturn(cfg: Setup, s: Engine)
    requires cfg.Valid() && Inv(cfg, s) && s.eventIn < s.eventOut
    ensures Inv(cfg, s.(eventIn := s.eventIn + 1))
  {
    assert SameToDo(cfg, s, s.(eventIn := s.eventIn + 1));
  }

  lemma EdgeReturnKeeps(cfg: Setup, s: Engine)
    requires cfg.Valid() && Inv(cfg, s) && s.edgesOut > 0
    ensures Inv(cfg, ReturnEdge(s))
  {
    if s.isDone {
      NothingOut(cfg, s);
    }
    ReturnEdgeKeeps(cfg, s);
    ReturnInv(cfg, s, ReturnEdge(s));
  }

  lemma InputReturnKeeps(cfg: Setup, s: Engine)
    requires cfg.Valid() && Inv(cfg, s) && s.inputsOut > 0
    ensures Inv(cfg, ReturnInput(s))
  {
    if s.isDone {
      NothingOut(cfg, s);
    }
    ReturnInputKeeps(cfg, s);
    ReturnInv(cfg, s, ReturnInput(s));
  }

  lemma StepIs(cfg: Setup, s: Engine, op: Op)
    requires cfg.Valid() && s.chunkCnt <= |cfg.chunks| && !s.failed
    ensures match op
            case OpTick(will) => Step(cfg, s, op) == Tick(cfg, s, will)
            case OpEdge => Step(cfg, s, op) == if s.edgesOut > 0 then ReturnEdge(s) else s
            case OpInput => Step(cfg, s, op) == if s.inputsOut > 0 then ReturnInput(s) else s
            case OpAggr => Step(cfg, s, op) == if s.eventIn < s.eventOut then s.(eventIn := s.eventIn + 1) else s
  {
  }

  lemma StepKeeps(cfg: Setup, s: Engine, op: Op)
    requires cfg.Valid() && Inv(cfg, s) && s.chunkCnt <= |cfg.chunks|
    ensures Inv(cfg, Step(cfg, s, op))
  {
    hide *;
    InvParts(cfg, s);
    StepIs(cfg, s, op);
    match op {
      case OpTick(will) => TickKeeps(cfg, s, will);
      case OpAggr =>
        if s.eventIn < s.eventOut {
          AggrReturn(cfg, s);
        }
      case OpEdge =>
        if s.edgesOut > 0 {
          EdgeReturnKeeps(cfg, s);
        }
      case OpInput =>
        if s.inputsOut > 0 {
          InputReturnKeeps(cfg, s);
        }
    }
  }

  lemma {:induction false} FreeSimds(n: nat, simds: seq<Simd>)
    requires |simds| == n && forall i :: 0 <= i < n ==> simds[i].state == Free && simds[i].macs == 0
    ensures Busy(simds) == 0 && Left(simds) == 0 && Macs(simds) == 0 && Running(simds) == multiset{}
  {
    if n > 0 {
      FreeSimds(n - 1, simds[..n - 1]);
    }
  }

  lemma InitInv(cfg: Setup, numSimds: nat)
    requires cfg.Valid()
    ensures Inv(cfg, Init(cfg, numSimds))
  {
    var s := Init(cfg, numSimds);
    FreeSimds(numSimds, s.simds);
    NoneDraining(s.ebuf);
    NoneDraining(s.inbuf);
    assert 0 * cfg.width == 0;
  }

  lemma {:induction false} RunInv(cfg: Setup, numSimds: nat, ops: seq<Op>)
    requires cfg.Valid()
    ensures Inv(cfg, Run(cfg, Init(cfg, numSimds), ops))
  {
    if ops == [] {
      InitInv(cfg, numSimds);
    } else {
      RunInv(cfg, numSimds, ops[..|ops| - 1]);
      StepKeeps(cfg, Run(cfg, Init(cfg, numSimds), ops[..|ops| - 1]), ops[|ops| - 1]);
    }
  }

  // ------------------------------------------------------------- the theorems

  // No assertion of the engine fails, whatever the memory does.
  lemma NeverFails(cfg: Setup, numSimds: nat, ops: seq<Op>)
    requires cfg.Valid()
    ensures !Run(cfg, Init(cfg, numSimds), ops).failed
  {
    RunInv(cfg, numSimds, ops);
  }

  lemma DrainsOne(cfg: Setup, s: Engine, e: nat)
    requires cfg.Valid() && Core(cfg, s, false) && e < |s.ebuf| && s.ebuf[e].state == Draining
    ensures forall f :: 0 <= f < |s.ebuf| && s.ebuf[f].state == Draining ==> f == e
    ensures s.ebuf[e].chunkId == s.confirmed < s.chunkCnt <= |cfg.chunks|
    ensures s.ready.vertex == s.ebuf[e].start == cfg.chunks[s.confirmed].start && s.aggr.vertex == s.ebuf[e].end
  {
    DrainingEdge(cfg, s.ebuf, s.chunkCnt, s.confirmed, s.edgesOut, e);
    assert cfg.ChunkOk(s.confirmed);
  }

  // At most one edge buffer drains at a time. It holds the first chunk that is
  // not confirmed, and the ready pointer stands at that chunk's first vertex.
  lemma OneChunkAtATime(cfg: Setup, numSimds: nat, ops: seq<Op>, e: nat)
    requires cfg.Valid() && e < |Run(cfg, Init(cfg, numSimds), ops).ebuf|
    requires Run(cfg, Init(cfg, numSimds), ops).ebuf[e].state == Draining
    ensures var s := Run(cfg, Init(cfg, numSimds), ops);
            && (forall f :: 0 <= f < |s.ebuf| && s.ebuf[f].state == Draining ==> f == e)
            && s.ebuf[e].chunkId == s.confirmed < s.chunkCnt <= |cfg.chunks|
            && s.ready.vertex == s.ebuf[e].start == cfg.chunks[s.confirmed].start
            && s.aggr.vertex == s.ebuf[e].end
  {
    hide *;
    RunInv(cfg, numSimds, ops);
    InvParts(cfg, Run(cfg, Init(cfg, numSimds), ops));
    DrainsOne(cfg, Run(cfg, Init(cfg, numSimds), ops), e);
  }

  // The jobs given out so far are a prefix of the list of all jobs: chunks, parts,
  // vertices and slices are started in their order.
  lemma StartedInOrder(cfg: Setup, numSimds: nat, ops: seq<Op>)
    requires cfg.Valid()
    ensures Run(cfg, Init(cfg, numSimds), ops).started <= ChunksTasks(cfg, 0)
  {
    RunInv(cfg, numSimds, ops);
  }

  lemma CountsSoFar(cfg: Setup, s: Engine)
    requires cfg.Valid() && Core(cfg, s, false)
    ensures Left(s.simds) <= Depth(s.started) && Macs(s.simds) == (Depth(s.started) - Left(s.simds)) * cfg.width
    ensures multiset(s.finished) + Running(s.simds) == multiset(s.started)
  {
  }

  // A job's operations are counted once: the total is that of the jobs given out,
  // less what is still running.
  lemma MacsSoFar(cfg: Setup, numSimds: nat, ops: seq<Op>)
    requires cfg.Valid()
    ensures var s := Run(cfg, Init(cfg, numSimds), ops);
            && Left(s.simds) <= Depth(s.started)
            && Macs(s.simds) == (Depth(s.started) - Left(s.simds)) * cfg.width
            && multiset(s.finished) + Running(s.simds) == multiset(s.started)
  {
    hide *;
    RunInv(cfg, numSimds, ops);
    InvParts(cfg, Run(cfg, Init(cfg, numSimds), ops));
    CountsSoFar(cfg, Run(cfg, Init(cfg, numSimds), ops));
  }

  lemma DoneState(cfg: Setup, s: Engine)
    requires cfg.Valid() && Inv(cfg, s) && s.isDone
    ensures s.confirmed == s.chunkCnt == |cfg.chunks| && Busy(s.simds) == 0
    ensures s.started == ChunksTasks(cfg, 0) && s.ready.vertex == cfg.StartOf(|cfg.chunks|) == s.aggr.vertex
  {
    NoneDraining(s.ebuf);
    NoneDraining(s.inbuf);
    assert ToDo(cfg, s.ebuf, s.inbuf, s.confirmed) == [];
  }

  lemma NoEmptyBag(a: multiset<Task>, b: multiset<Task>, c: multiset<Task>)
    requires a + b == c && b == multiset{}
    ensures a == c
  {
  }

  lemma FinishedAll(simds: seq<Simd>, started: seq<Task>, finished: seq<Task>)
    requires BagOk(simds, started, finished) && Busy(simds) == 0
    ensures multiset(finished) == multiset(started) && Left(simds) == 0
  {
    NoneBusy(simds);
    NoEmptyBag(multiset(finished), Running(simds), multiset(started));
  }

  lemma AllOps(cfg: Setup, s: Engine, x: nat)
    requires MacsOk(cfg, s.simds, s.started) && Left(s.simds) == 0 && Reads(s.started, x, cfg.featureChunks)
    ensures Macs(s.simds) == x * cfg.featureChunks * cfg.width
  {
  }

  lemma DoneFacts(cfg: Setup, s: Engine)
    requires cfg.Valid() && Inv(cfg, s) && s.isDone
    ensures s.eventIn == s.eventOut && AllIdle(s.ebuf) && AllIdle(s.inbuf) && Core(cfg, s, false)
    ensures BagOk(s.simds, s.started, s.finished) && MacsOk(cfg, s.simds, s.started)
  {
  }

  // When the engine says it is done, every chunk has been confirmed, every event
  // has come back, every job has been started in order and finished once, and the
  // operations are edges times slices times width.
  lemma DoneMeansAll(cfg: Setup, numSimds: nat, ops: seq<Op>)
    requires cfg.Valid() && Run(cfg, Init(cfg, numSimds), ops).isDone
    ensures var s := Run(cfg, Init(cfg, numSimds), ops);
            && s.confirmed == |cfg.chunks| && s.ready.vertex == cfg.StartOf(|cfg.chunks|)
            && s.eventIn == s.eventOut && s.edgesOut == 0 && s.inputsOut == 0
            && s.started == ChunksTasks(cfg, 0)
            && multiset(s.finished) == multiset(ChunksTasks(cfg, 0))
            && Macs(s.simds) == Edges(cfg, 0) * cfg.featureChunks * cfg.width
  {
    hide *;
    RunInv(cfg, numSimds, ops);
    var s := Run(cfg, Init(cfg, numSimds), ops);
    DoneState(cfg, s);
    DoneFacts(cfg, s);
    NothingOut(cfg, s);
    FinishedAll(s.simds, s.started, s.finished);
    ChunksDepth(cfg, 0);
    AllOps(cfg, s, Edges(cfg, 0));
  }

  // And then every slice of every vertex has aggregated the vertex's row of
  // sources exactly once, in the row's order.
  lemma DoneMeansEveryRow(cfg: Setup, numSimds: nat, ops: seq<Op>, c: nat, i: nat, f: nat)
    requires cfg.Valid() && Run(cfg, Init(cfg, numSimds), ops).isDone
    requires c < |cfg.chunks| && i < |cfg.chunks[c].rows| && f < cfg.featureChunks
    ensures Gathered(Run(cfg, Init(cfg, numSimds), ops).started, cfg.StartOf(c) + i, f) == cfg.chunks[c].rows[i]
  {
    DoneMeansAll(cfg, numSimds, ops);
    AllGathered(cfg, 0, c, i, f);
  }
}
