// Giving out jobs and taking back memory events keep the engine's invariant.
module AggrFeed {
  import opened EdgePartition
  import opened AggrSpec
  import opened AggrTasks
  import opened AggrInvariant
  import opened AggrSimds
  import opened AggrParts
  import opened AggrFill

  // --------------------------------------------------- the part's next job

  // The input buffer after giving out one job, or after skipping an empty row.
  predicate Advances(cfg: Setup, b: Spm, b': Spm) {
    b' == if b.featureCnt + 1 == cfg.featureChunks
          then b.(featureCnt := 0, vertexPtr := b.vertexPtr + 1)
          else b.(featureCnt := b.featureCnt + 1)
  }

  predicate AtRow(b: Spm) { 0 <= b.vertexPtr - b.start < |b.edges| && 0 <= b.featureCnt }

  function RowAt(b: Spm): seq<int>
    requires AtRow(b)
  {
    b.edges[b.vertexPtr - b.start]
  }

  lemma SkipRow(cfg: Setup, b: Spm)
    requires AtRow(b) && RowAt(b) == [] && b.featureCnt == 0
    ensures Remaining(cfg, b.(vertexPtr := b.vertexPtr + 1)) == Remaining(cfg, b)
  {
    var v := b.vertexPtr - b.start;
    assert RowTasks(cfg, b.vertexPtr, b.edges[v], 0) == [];
  }

  lemma TakeJob(cfg: Setup, b: Spm, b': Spm)
    requires AtRow(b) && RowAt(b) != [] && b.featureCnt < cfg.featureChunks && Advances(cfg, b, b')
    ensures Remaining(cfg, b) == [Task(b.vertexPtr, b.featureCnt, RowAt(b))] + Remaining(cfg, b')
  {
    var v := b.vertexPtr - b.start;
    assert RowTasks(cfg, b.vertexPtr, b.edges[v], b.featureCnt) ==
           [Task(b.vertexPtr, b.featureCnt, b.edges[v])] + RowTasks(cfg, b.vertexPtr, b.edges[v], b.featureCnt + 1);
  }

  // The draining input buffer moves on.
  predicate MovesOn(cfg: Setup, b: Spm, b': Spm) {
    && AtRow(b) && b.vertexPtr < b.end
    && if RowAt(b) == [] then b' == b.(vertexPtr := b.vertexPtr + 1) else Advances(cfg, b, b')
  }

  lemma MovesOnPair(cfg: Setup, eb: Spm, e: nat, b: Spm, o: Spm, b': Spm)
    requires PairOk(cfg, eb, e, b, o, false) && b.state == Draining && MovesOn(cfg, b, b') && 0 < cfg.featureChunks
    ensures PairOk(cfg, eb, e, b', o, false)
  {
  }

  lemma MovesOnInputs(cfg: Setup, ebuf: seq<Spm>, inbuf: seq<Spm>, inputsOut: nat, p: nat, b: Spm)
    requires InputsOk(cfg, ebuf, inbuf, inputsOut, false) && p < 2 && inbuf[p].state == Draining && 0 < cfg.featureChunks
    requires MovesOn(cfg, inbuf[p], b)
    ensures InputsOk(cfg, ebuf, inbuf[p := b], inputsOut, false)
    ensures Target(inbuf[p := b], Draining) == Target(inbuf, Draining) == p
  {
    DrainingInput(cfg, ebuf, inbuf, inputsOut, false, p);
    TargetOfTwo(inbuf[p := b], Draining);
    MovesOnPair(cfg, ebuf[Target(ebuf, Draining)], Target(ebuf, Draining), inbuf[p], inbuf[1 - p], b);
    InputsFromPair(cfg, ebuf, inbuf, inputsOut, false, p, b);
  }

  // ------------------------------------------------------------- empty rows

  lemma SkipToDo(cfg: Setup, ebuf: seq<Spm>, inbuf: seq<Spm>, confirmed: nat, p: nat, b: Spm)
    requires cfg.Valid() && p < |inbuf| && Target(inbuf[p := b], Draining) == Target(inbuf, Draining) == p
    requires Remaining(cfg, b) == Remaining(cfg, inbuf[p])
    ensures ToDo(cfg, ebuf, inbuf[p := b], confirmed) == ToDo(cfg, ebuf, inbuf, confirmed)
  {
  }

  lemma SkipEvents(cfg: Setup, inbuf: seq<Spm>, simds: seq<Simd>, p: nat, b: Spm)
    requires p < |inbuf| && Target(inbuf[p := b], Draining) == Target(inbuf, Draining) == p
    requires Remaining(cfg, b) == Remaining(cfg, inbuf[p]) && b.events == inbuf[p].events && EventsOk(cfg, inbuf, simds)
    ensures EventsOk(cfg, inbuf[p := b], simds)
  {
  }

  lemma DrainingRow(cfg: Setup, s: Engine, p: nat)
    requires cfg.Valid() && Core(cfg, s, false) && p < 2 && s.inbuf[p].state == Draining && s.inbuf[p].vertexPtr < s.inbuf[p].end
    ensures |s.inbuf| == 2 && AtRow(s.inbuf[p]) && s.inbuf[p].featureCnt < cfg.featureChunks && 0 < cfg.featureChunks
    ensures RowAt(s.inbuf[p]) == [] ==> s.inbuf[p].featureCnt == 0
    ensures s.ready.vertex <= s.inbuf[p].vertexPtr && Target(s.inbuf, Draining) == p && Has(s.ebuf, Draining)
  {
    DrainingInput(cfg, s.ebuf, s.inbuf, s.inputsOut, false, p);
    assert cfg.ChunkOk(s.confirmed);
  }

  lemma StillDraining(inbuf: seq<Spm>, p: nat, b: Spm)
    requires p < |inbuf| && b.state == Draining
    ensures forall q :: 0 <= q < |inbuf| && inbuf[q].state == Draining ==> inbuf[p := b][q].state == Draining
  {
  }

  lemma SkipKeeps(cfg: Setup, s: Engine, p: nat, b: Spm)
    requires cfg.Valid() && Core(cfg, s, false) && p < 2 && |s.inbuf| == 2 && s.inbuf[p].state == Draining
    requires s.inbuf[p].vertexPtr < s.inbuf[p].end && AtRow(s.inbuf[p]) && RowAt(s.inbuf[p]) == []
    requires b == s.inbuf[p].(vertexPtr := s.inbuf[p].vertexPtr + 1) && MovesOn(cfg, s.inbuf[p], b)
    ensures Kept(cfg, s, s.(inbuf := s.inbuf[p := b]))
  {
    hide *;
    SwapParts(cfg, s, false);
    SimdParts(cfg, s, false);
    DrainingRow(cfg, s, p);
    SkipRow(cfg, s.inbuf[p]);
    MovesOnInputs(cfg, s.ebuf, s.inbuf, s.inputsOut, p, b);
    SkipToDo(cfg, s.ebuf, s.inbuf, s.confirmed, p, b);
    SkipEvents(cfg, s.inbuf, s.simds, p, b);
    StillDraining(s.inbuf, p, b);
    SimdsKeepInbuf(cfg, s.ready.vertex, s.inbuf, s.inbuf[p := b], s.simds);
    BuffersSwap(cfg, s, s.ebuf, s.inbuf[p := b], s.inputsOut, false, false);
    KeptBy(cfg, s, s.(inbuf := s.inbuf[p := b]));
  }

  // ------------------------------------------------------------- giving out

  lemma AddJob(cfg: Setup, simds: seq<Simd>, started: seq<Task>, finished: seq<Task>, k: nat, d: Simd)
    requires k < |simds| && simds[k].state == Free && d.state == Computing && d.macs == simds[k].macs
    requires d.depth == |d.row| && d.depth > 0
    requires BagOk(simds, started, finished) && MacsOk(cfg, simds, started)
    ensures BagOk(simds[k := d], started + [d.Job()], finished) && MacsOk(cfg, simds[k := d], started + [d.Job()])
    ensures Busy(simds[k := d]) == Busy(simds) + 1
  {
    BusyReplaced(simds, k, d);
    AddToBag(simds, started, finished, k, d);
    AddToMacs(cfg, simds, started, k, d);
  }

  lemma AddToBag(simds: seq<Simd>, started: seq<Task>, finished: seq<Task>, k: nat, d: Simd)
    requires k < |simds| && simds[k].state == Free && d.state == Computing && BagOk(simds, started, finished)
    ensures BagOk(simds[k := d], started + [d.Job()], finished)
  {
    RunningReplaced(simds, k, d);
    assert Running(simds[k := d]) == Running(simds) + multiset{d.Job()};
    assert multiset(started + [d.Job()]) == multiset(started) + multiset{d.Job()};
  }

  lemma AddToMacs(cfg: Setup, simds: seq<Simd>, started: seq<Task>, k: nat, d: Simd)
    requires k < |simds| && simds[k].state == Free && d.state == Computing && d.macs == simds[k].macs
    requires d.depth == |d.row| && d.depth > 0 && MacsOk(cfg, simds, started)
    ensures MacsOk(cfg, simds[k := d], started + [d.Job()])
  {
    LeftReplaced(simds, k, d);
    MacsReplaced(simds, k, d);
    DepthConcat(started, [d.Job()]);
    assert [d.Job()][1..] == [];
    assert Depth([d.Job()]) == |d.row|;
    assert Depth(started + [d.Job()]) - Left(simds[k := d]) == Depth(started) - Left(simds);
  }

  lemma AssignIs(cfg: Setup, s: Engine, p: nat, k: nat) returns (d: Simd, b: Spm)
    requires cfg.Valid() && p < |s.inbuf| && k < |s.simds| && AtRow(s.inbuf[p]) && s.inbuf[p].vertexPtr >= s.ready.vertex
    ensures d.state == Computing && d.macs == s.simds[k].macs && d.depth == |d.row| && d.width == cfg.width && d.inbuf == p
    ensures d.Job() == Task(s.inbuf[p].vertexPtr, s.inbuf[p].featureCnt, RowAt(s.inbuf[p])) && d.row == RowAt(s.inbuf[p])
    ensures d.vertex >= s.ready.vertex && Advances(cfg, s.inbuf[p], b) && b.state == s.inbuf[p].state && b.events == s.inbuf[p].events
    ensures Assign(cfg, s, p, k) == s.(simds := s.simds[k := d], inbuf := s.inbuf[p := b], eventOut := s.eventOut + 1,
                                       started := s.started + [d.Job()])
  {
    d, b := Assign(cfg, s, p, k).simds[k], Assign(cfg, s, p, k).inbuf[p];
  }

  lemma GiveToDo(cfg: Setup, ebuf: seq<Spm>, inbuf: seq<Spm>, confirmed: nat, p: nat, b: Spm, t: Task, started: seq<Task>)
    requires cfg.Valid() && p < |inbuf| && Target(inbuf[p := b], Draining) == Target(inbuf, Draining) == p
    requires Remaining(cfg, inbuf[p]) == [t] + Remaining(cfg, b) && Has(ebuf, Draining)
    ensures (started + [t]) + ToDo(cfg, ebuf, inbuf[p := b], confirmed) == started + ToDo(cfg, ebuf, inbuf, confirmed)
  {
    GiveRest(cfg, ebuf[Target(ebuf, Draining)], inbuf, p, b, t);
    Shift(started, [t], RestOfChunk(cfg, ebuf[Target(ebuf, Draining)], inbuf[p := b]), ChunksTasks(cfg, confirmed + 1));
  }

  // The jobs of the draining chunk's parts behind the current one.
  function LaterParts(cfg: Setup, eb: Spm): seq<Task> {
    if PartsDone(eb) < 0 then [] else PartsTasks(cfg, eb.start, eb.parts, PartsDone(eb) + 1)
  }

  lemma RestIs(cfg: Setup, eb: Spm, inbuf: seq<Spm>, p: nat)
    requires Target(inbuf, Draining) == p && p < |inbuf|
    ensures RestOfChunk(cfg, eb, inbuf) == Remaining(cfg, inbuf[p]) + LaterParts(cfg, eb)
  {
  }

  lemma GiveRest(cfg: Setup, eb: Spm, inbuf: seq<Spm>, p: nat, b: Spm, t: Task)
    requires p < |inbuf| && Target(inbuf[p := b], Draining) == Target(inbuf, Draining) == p
    requires Remaining(cfg, inbuf[p]) == [t] + Remaining(cfg, b)
    ensures RestOfChunk(cfg, eb, inbuf) == [t] + RestOfChunk(cfg, eb, inbuf[p := b])
  {
    hide *;
    RestIs(cfg, eb, inbuf, p);
    RestIs(cfg, eb, inbuf[p := b], p);
    Group([t], Remaining(cfg, b), LaterParts(cfg, eb));
  }

  lemma Group(a: seq<Task>, b: seq<Task>, c: seq<Task>)
    ensures (a + b) + c == a + (b + c)
  {
  }

  lemma Shift(a: seq<Task>, t: seq<Task>, b: seq<Task>, c: seq<Task>)
    ensures (a + t) + (b + c) == a + ((t + b) + c)
  {
  }

  lemma GiveEvents(cfg: Setup, inbuf: seq<Spm>, simds: seq<Simd>, simds': seq<Simd>, p: nat, b: Spm, t: Task)
    requires p < |inbuf| && Target(inbuf[p := b], Draining) == Target(inbuf, Draining) == p
    requires Remaining(cfg, inbuf[p]) == [t] + Remaining(cfg, b) && b.events == inbuf[p].events
    requires EventsOk(cfg, inbuf, simds) && Busy(simds') == Busy(simds) + 1
    ensures EventsOk(cfg, inbuf[p := b], simds')
  {
  }

  lemma NewSimd(cfg: Setup, ready: int, inbuf: seq<Spm>, d: Simd, p: nat)
    requires d.state == Computing && p < |inbuf| && inbuf[p].state == Draining && d.inbuf == p
    requires 0 < d.depth == |d.row| && d.width == cfg.width && d.vertex >= ready
    ensures SimdOk(cfg, ready, inbuf, d)
  {
  }

  // The same jobs altogether, in the same order.
  ghost predicate SameJobs(cfg: Setup, s: Engine, s': Engine)
    requires cfg.Valid()
  {
    s'.started + ToDo(cfg, s'.ebuf, s'.inbuf, s'.confirmed) == s.started + ToDo(cfg, s.ebuf, s.inbuf, s.confirmed)
  }

  lemma JobsSwap(cfg: Setup, s: Engine, inbuf: seq<Spm>, simds: seq<Simd>, started: seq<Task>)
    requires cfg.Valid() && Core(cfg, s, false)
    requires InputsOk(cfg, s.ebuf, inbuf, s.inputsOut, false)
    requires SimdsOk(cfg, s.ready.vertex, inbuf, simds) && EventsOk(cfg, inbuf, simds)
    requires BagOk(simds, started, s.finished) && MacsOk(cfg, simds, started)
    ensures Core(cfg, s.(simds := simds, inbuf := inbuf, eventOut := s.eventOut + 1, started := started), false)
  {
  }

  lemma AssignKeeps(cfg: Setup, s: Engine, p: nat, k: nat)
    requires cfg.Valid() && Core(cfg, s, false) && p < 2 && |s.inbuf| == 2 && s.inbuf[p].state == Draining
    requires s.inbuf[p].vertexPtr < s.inbuf[p].end && AtRow(s.inbuf[p]) && RowAt(s.inbuf[p]) != []
    requires k < |s.simds| && s.simds[k].state == Free
    ensures Core(cfg, Assign(cfg, s, p, k), false) && SameJobs(cfg, s, Assign(cfg, s, p, k))
    ensures Assign(cfg, s, p, k).inbuf[p].state == Draining
  {
    DrainingRow(cfg, s, p);
    var d, b := AssignIs(cfg, s, p, k);
    assert MovesOn(cfg, s.inbuf[p], b);
    GivesOut(cfg, s, p, k, d, b);
  }

  lemma JobsStay(cfg: Setup, s: Engine, inbuf: seq<Spm>, simds: seq<Simd>, started: seq<Task>)
    requires cfg.Valid()
    requires started + ToDo(cfg, s.ebuf, inbuf, s.confirmed) == s.started + ToDo(cfg, s.ebuf, s.inbuf, s.confirmed)
    ensures SameJobs(cfg, s, s.(simds := simds, inbuf := inbuf, eventOut := s.eventOut + 1, started := started))
  {
  }

  lemma GivesOut(cfg: Setup, s: Engine, p: nat, k: nat, d: Simd, b: Spm)
    requires cfg.Valid() && Core(cfg, s, false) && p < 2 && |s.inbuf| == 2 && s.inbuf[p].state == Draining
    requires s.inbuf[p].vertexPtr < s.inbuf[p].end && AtRow(s.inbuf[p]) && RowAt(s.inbuf[p]) != []
    requires k < |s.simds| && s.simds[k].state == Free
    requires d.state == Computing && d.macs == s.simds[k].macs && d.depth == |d.row| && d.width == cfg.width && d.inbuf == p
    requires d.Job() == Task(s.inbuf[p].vertexPtr, s.inbuf[p].featureCnt, RowAt(s.inbuf[p])) && d.row == RowAt(s.inbuf[p])
    requires d.vertex >= s.ready.vertex && MovesOn(cfg, s.inbuf[p], b) && Advances(cfg, s.inbuf[p], b)
    requires b.state == Draining && b.events == s.inbuf[p].events
    ensures Core(cfg, s.(simds := s.simds[k := d], inbuf := s.inbuf[p := b], eventOut := s.eventOut + 1, started := s.started + [d.Job()]), false)
    ensures SameJobs(cfg, s, s.(simds := s.simds[k := d], inbuf := s.inbuf[p := b], eventOut := s.eventOut + 1, started := s.started + [d.Job()]))
  {
    hide *;
    var inbuf', simds' := s.inbuf[p := b], s.simds[k := d];
    SwapParts(cfg, s, false);
    SimdParts(cfg, s, false);
    DrainingRow(cfg, s, p);
    TakeJob(cfg, s.inbuf[p], b);
    MovesOnInputs(cfg, s.ebuf, s.inbuf, s.inputsOut, p, b);
    AddJob(cfg, s.simds, s.started, s.finished, k, d);
    GiveToDo(cfg, s.ebuf, s.inbuf, s.confirmed, p, b, d.Job(), s.started);
    GiveEvents(cfg, s.inbuf, s.simds, simds', p, b, d.Job());
    StillDraining(s.inbuf, p, b);
    SimdsKeepInbuf(cfg, s.ready.vertex, s.inbuf, inbuf', s.simds);
    NewSimd(cfg, s.ready.vertex, inbuf', d, p);
    SimdsOkSet(cfg, s.ready.vertex, inbuf', s.simds, k, d);
    JobsSwap(cfg, s, inbuf', simds', s.started + [d.Job()]);
    JobsStay(cfg, s, inbuf', simds', s.started + [d.Job()]);
  }

  ghost predicate KeptJobs(cfg: Setup, s: Engine, s': Engine)
    requires cfg.Valid()
  {
    Core(cfg, s', false) && SameJobs(cfg, s, s') && s'.ebuf == s.ebuf && s'.chunkCnt == s.chunkCnt && s'.isDone == s.isDone
  }

  lemma JobsTwice(cfg: Setup, s: Engine, s1: Engine, s2: Engine)
    requires cfg.Valid() && KeptJobs(cfg, s, s1) && KeptJobs(cfg, s1, s2)
    ensures KeptJobs(cfg, s, s2)
  {
  }

  lemma ToDoToJobs(cfg: Setup, s: Engine, s': Engine)
    requires cfg.Valid() && Kept(cfg, s, s') && s'.ebuf == s.ebuf && s'.chunkCnt == s.chunkCnt && s'.isDone == s.isDone
    ensures KeptJobs(cfg, s, s')
  {
  }

  lemma AssignFrame(cfg: Setup, s: Engine, p: nat, k: nat)
    requires cfg.Valid() && p < |s.inbuf| && k < |s.simds| && AtRow(s.inbuf[p])
    ensures var s' := Assign(cfg, s, p, k);
            s'.ebuf == s.ebuf && s'.chunkCnt == s.chunkCnt && s'.isDone == s.isDone && |s'.inbuf| == |s.inbuf| && |s'.simds| == |s.simds|
  {
  }

  // One round of the loop.
  lemma FeedUnfold(cfg: Setup, s: Engine, p: nat)
    requires cfg.Valid() && p < |s.inbuf| && !s.failed
    ensures var k := FreeSimd(s.simds);
            var b := s.inbuf[p];
            if k == |s.simds| || b.vertexPtr >= b.end then Feed(cfg, s, p) == s
            else if !AtRow(b) then true
            else if RowAt(b) == [] then
              Feed(cfg, s, p) == Feed(cfg, s.(inbuf := s.inbuf[p := b.(vertexPtr := b.vertexPtr + 1)]), p)
            else
              |Assign(cfg, s, p, k).inbuf| == |s.inbuf| && (!Assign(cfg, s, p, k).failed ==> Feed(cfg, s, p) == Feed(cfg, Assign(cfg, s, p, k), p))
  {
  }

  lemma KeptNotFailed(cfg: Setup, s: Engine, mid: bool)
    requires cfg.Valid() && Core(cfg, s, mid)
    ensures !s.failed && |s.inbuf| == |s.ebuf| == 2
  {
  }

  lemma SkipMoves(cfg: Setup, b: Spm)
    requires AtRow(b) && b.vertexPtr < b.end && RowAt(b) == []
    ensures MovesOn(cfg, b, b.(vertexPtr := b.vertexPtr + 1))
  {
  }

  lemma NothingToDo(cfg: Setup, s: Engine)
    requires cfg.Valid() && Core(cfg, s, false)
    ensures KeptJobs(cfg, s, s)
  {
  }

  lemma {:induction false} FeedKeeps(cfg: Setup, s: Engine, p: nat)
    requires cfg.Valid() && Core(cfg, s, false) && p < 2 && |s.inbuf| == 2 && s.inbuf[p].state == Draining
    ensures KeptJobs(cfg, s, Feed(cfg, s, p))
    decreases s.inbuf[p].end - s.inbuf[p].vertexPtr, FreeCount(s.simds)
  {
    hide *;
    KeptNotFailed(cfg, s, false);
    var k := FreeSimd(s.simds);
    var b := s.inbuf[p];
    FeedUnfold(cfg, s, p);
    if k == |s.simds| || b.vertexPtr >= b.end {
      NothingToDo(cfg, s);
    } else {
      DrainingRow(cfg, s, p);
      if RowAt(b) == [] {
        var b' := b.(vertexPtr := b.vertexPtr + 1);
        var s1 := s.(inbuf := s.inbuf[p := b']);
        SkipMoves(cfg, b);
        SkipKeeps(cfg, s, p, b');
        ToDoToJobs(cfg, s, s1);
        KeptIsCore(cfg, s, s1);
        FeedKeeps(cfg, s1, p);
        JobsTwice(cfg, s, s1, Feed(cfg, s1, p));
      } else {
        AssignRound(cfg, s, p, k);
        var s1 := Assign(cfg, s, p, k);
        FeedKeeps(cfg, s1, p);
        JobsTwice(cfg, s, s1, Feed(cfg, s1, p));
      }
    }
  }

  lemma AssignRound(cfg: Setup, s: Engine, p: nat, k: nat)
    requires cfg.Valid() && Core(cfg, s, false) && p < 2 && |s.inbuf| == 2 && s.inbuf[p].state == Draining
    requires s.inbuf[p].vertexPtr < s.inbuf[p].end && AtRow(s.inbuf[p]) && RowAt(s.inbuf[p]) != []
    requires k < |s.simds| && s.simds[k].state == Free
    ensures var s1 := Assign(cfg, s, p, k);
            && Core(cfg, s1, false) && KeptJobs(cfg, s, s1) && !s1.failed
            && |s1.inbuf| == 2 && s1.inbuf[p].state == Draining
            && FreeCount(s1.simds) < FreeCount(s.simds) && s1.inbuf[p].end == s.inbuf[p].end && s1.inbuf[p].vertexPtr >= s.inbuf[p].vertexPtr
  {
    AssignKeeps(cfg, s, p, k);
    AssignFrame(cfg, s, p, k);
    KeptNotFailed(cfg, Assign(cfg, s, p, k), false);
    FeedDecreases(cfg, s, p, k);
  }

  // ---------------------------------------------------------- starting to drain

  // The input buffer whose part is next, ready, begins to drain.
  predicate Starts(cfg: Setup, b: Spm, b': Spm) {
    b' == b.(events := b.nonEmpty * cfg.featureChunks, state := Draining)
  }

  lemma StartPair(cfg: Setup, eb: Spm, e: nat, b: Spm, o: Spm, b': Spm)
    requires PairOk(cfg, eb, e, b, o, true) && b.state == Ready && o.state != Draining && Starts(cfg, b, b') && 0 < cfg.featureChunks
    requires b.start <= b.end
    ensures PairOk(cfg, eb, e, b', o, false)
    ensures b.partId == PartsDone(eb) && 0 <= PartsDone(eb) < |eb.parts| && b.edges == eb.parts[PartsDone(eb)] && b.start == eb.start
    ensures b.vertexPtr == b.start && b.featureCnt == 0 && b.nonEmpty == NonEmptyRows(b.edges)
  {
  }

  lemma StartEnd(cfg: Setup, ebuf: seq<Spm>, chunkCnt: nat, confirmed: nat, edgesOut: nat, eb: Spm, e: nat, b: Spm)
    requires cfg.Valid() && EdgesOk(cfg, ebuf, chunkCnt, confirmed, edgesOut) && e < 2 && eb == ebuf[e] && eb.state == Draining
    requires InputOk(cfg, eb, e, b) && b.state == Ready
    ensures b.start <= b.end
  {
    LastEndMeaning(b.edges, eb.start, eb.end);
  }

  lemma StartRemaining(cfg: Setup, b: Spm, b': Spm)
    requires Starts(cfg, b, b') && b.vertexPtr == b.start && b.featureCnt == 0 && b.nonEmpty == NonEmptyRows(b.edges)
    ensures Remaining(cfg, b') == PartTasks(cfg, b.start, b.edges, 0) && b'.events == |Remaining(cfg, b')|
  {
    PartEvents(cfg, b.start, b.edges);
  }

  lemma StartInputs(cfg: Setup, ebuf: seq<Spm>, inbuf: seq<Spm>, inputsOut: nat, p: nat, b: Spm)
    requires InputsOk(cfg, ebuf, inbuf, inputsOut, true) && p < 2 && inbuf[p].state == Ready && !Has(inbuf, Draining)
    requires Starts(cfg, inbuf[p], b) && 0 < cfg.featureChunks && inbuf[p].start <= inbuf[p].end
    ensures Has(ebuf, Draining) && InputsOk(cfg, ebuf, inbuf[p := b], inputsOut, false) && Target(inbuf[p := b], Draining) == p
    ensures var eb := ebuf[Target(ebuf, Draining)];
            && 0 <= PartsDone(eb) < |eb.parts| && inbuf[p].edges == eb.parts[PartsDone(eb)] && inbuf[p].start == eb.start
            && inbuf[p].vertexPtr == inbuf[p].start && inbuf[p].featureCnt == 0 && inbuf[p].nonEmpty == NonEmptyRows(inbuf[p].edges)
  {
    var e := Target(ebuf, Draining);
    TargetOfTwo(inbuf, Draining);
    TargetOfTwo(inbuf[p := b], Draining);
    if p == 1 {
      PairTurned(cfg, ebuf[e], e, inbuf[0], inbuf[1], true);
    }
    StartPair(cfg, ebuf[e], e, inbuf[p], inbuf[1 - p], b);
    InputsFromPair(cfg, ebuf, inbuf, inputsOut, false, p, b);
  }

  lemma StartRest(cfg: Setup, eb: Spm, inbuf: seq<Spm>, p: nat, b: Spm)
    requires p < |inbuf| && !Has(inbuf, Draining) && Target(inbuf[p := b], Draining) == p
    requires 0 <= PartsDone(eb) < |eb.parts| && Remaining(cfg, b) == PartTasks(cfg, eb.start, eb.parts[PartsDone(eb)], 0)
    ensures RestOfChunk(cfg, eb, inbuf[p := b]) == RestOfChunk(cfg, eb, inbuf)
  {
  }

  lemma StartEvents(cfg: Setup, inbuf: seq<Spm>, simds: seq<Simd>, p: nat, b: Spm)
    requires p < |inbuf| && !Has(inbuf, Draining) && Target(inbuf[p := b], Draining) == p
    requires EventsOk(cfg, inbuf, simds) && b.events == |Remaining(cfg, b)|
    ensures EventsOk(cfg, inbuf[p := b], simds) && Busy(simds) == 0
  {
  }

  lemma ReadyFacts(cfg: Setup, s: Engine, p: nat)
    requires cfg.Valid() && Core(cfg, s, true) && p < 2 && s.inbuf[p].state == Ready
    ensures s.inbuf[p].start <= s.inbuf[p].end && 0 < cfg.featureChunks
  {
    TargetOfTwo(s.ebuf, Draining);
    var e := Target(s.ebuf, Draining);
    StartEnd(cfg, s.ebuf, s.chunkCnt, s.confirmed, s.edgesOut, s.ebuf[e], e, s.inbuf[p]);
  }

  lemma StartKeeps(cfg: Setup, s: Engine, p: nat, b: Spm)
    requires cfg.Valid() && Core(cfg, s, true) && p < 2 && |s.inbuf| == 2 && s.inbuf[p].state == Ready && !Has(s.inbuf, Draining)
    requires Starts(cfg, s.inbuf[p], b)
    ensures Kept(cfg, s, s.(inbuf := s.inbuf[p := b]))
  {
    hide *;
    var inbuf' := s.inbuf[p := b];
    SwapParts(cfg, s, true);
    SimdParts(cfg, s, true);
    ReadyFacts(cfg, s, p);
    StartInputs(cfg, s.ebuf, s.inbuf, s.inputsOut, p, b);
    StartRemaining(cfg, s.inbuf[p], b);
    StartEvents(cfg, s.inbuf, s.simds, p, b);
    HasIs(s.ebuf);
    StartRest(cfg, s.ebuf[Target(s.ebuf, Draining)], s.inbuf, p, b);
    SameChunkToDo(cfg, s.ebuf, s.ebuf, s.inbuf, inbuf', s.confirmed, Target(s.ebuf, Draining));
    FreeSimdsOk(cfg, s.ready.vertex, s.ready.vertex, s.inbuf, inbuf', s.simds);
    BuffersSwap(cfg, s, s.ebuf, inbuf', s.inputsOut, true, false);
    KeptBy(cfg, s, s.(inbuf := inbuf'));
  }

  lemma HasIs(bufs: seq<Spm>)
    ensures Has(bufs, Draining) <==> Target(bufs, Draining) < |bufs|
  {
  }

  // In the middle of a tick with a buffer draining, or none ready, nothing is out of order.
  lemma MidSettles(cfg: Setup, s: Engine)
    requires cfg.Valid() && Core(cfg, s, true)
    requires Has(s.inbuf, Draining) || !Has(s.inbuf, Ready)
    ensures Core(cfg, s, false)
  {
    TargetOfTwo(s.inbuf, Draining);
    TargetOfTwo(s.inbuf, Ready);
  }

  lemma DispatchKeeps(cfg: Setup, s: Engine)
    requires cfg.Valid() && Core(cfg, s, true)
    ensures KeptJobs(cfg, s, Dispatch(cfg, s))
  {
    KeptNotFailed(cfg, s, true);
    if Has(s.inbuf, Draining) {
      MidSettles(cfg, s);
      FeedKeeps(cfg, s, Target(s.inbuf, Draining));
    } else if Has(s.inbuf, Ready) {
      DispatchReady(cfg, s, Target(s.inbuf, Ready));
    } else {
      MidSettles(cfg, s);
      NothingToDo(cfg, s);
    }
  }

  lemma DispatchReady(cfg: Setup, s: Engine, p: nat)
    requires cfg.Valid() && Core(cfg, s, true) && |s.inbuf| == 2 && p < 2 && !Has(s.inbuf, Draining) && p == Target(s.inbuf, Ready)
    ensures KeptJobs(cfg, s, Dispatch(cfg, s))
  {
    var b, s1 := ReadyDispatches(cfg, s, p);
    hide *;
    StartKeeps(cfg, s, p, b);
    ToDoToJobs(cfg, s, s1);
    KeptIsCore(cfg, s, s1);
    FeedKeeps(cfg, s1, p);
    JobsTwice(cfg, s, s1, Feed(cfg, s1, p));
  }

  lemma ReadyDispatches(cfg: Setup, s: Engine, p: nat) returns (b: Spm, s1: Engine)
    requires cfg.Valid() && |s.inbuf| == 2 && p < 2 && !Has(s.inbuf, Draining) && p == Target(s.inbuf, Ready)
    ensures s.inbuf[p].state == Ready && Starts(cfg, s.inbuf[p], b) && b.state == Draining
    ensures s1 == s.(inbuf := s.inbuf[p := b]) && Dispatch(cfg, s) == Feed(cfg, s1, p)
  {
    b := s.inbuf[p].(events := s.inbuf[p].nonEmpty * cfg.featureChunks).SwitchState(Draining);
    s1 := s.(inbuf := s.inbuf[p := b]);
  }

  // ------------------------------------------------------- returned events

  lemma EdgeReturns(cfg: Setup, ebuf: seq<Spm>, chunkCnt: nat, confirmed: nat, edgesOut: nat, i: nat)
    requires cfg.Valid() && EdgesOk(cfg, ebuf, chunkCnt, confirmed, edgesOut) && edgesOut > 0 && i == Target(ebuf, Filling)
    ensures i < 2 && ebuf[i].events == 1
    ensures var eb := ebuf[i].(events := 0).SwitchState(Ready);
            EdgesOk(cfg, ebuf[i := eb], chunkCnt, confirmed, edgesOut - 1)
  {
    TargetOfTwo(ebuf, Filling);
  }

  lemma ReturnEdgeIs(s: Engine, i: nat)
    requires s.edgesOut > 0 && i == Target(s.ebuf, Filling) && i < |s.ebuf| && s.ebuf[i].events == 1
    ensures ReturnEdge(s) == s.(ebuf := s.ebuf[i := s.ebuf[i].(events := 0).SwitchState(Ready)], edgesOut := s.edgesOut - 1)
    ensures s.ebuf[i].state == Filling && s.ebuf[i].(events := 0).SwitchState(Ready).state == Ready
  {
  }

  lemma ReturnEdgeKeeps(cfg: Setup, s: Engine)
    requires cfg.Valid() && Core(cfg, s, false) && s.edgesOut > 0
    ensures Kept(cfg, s, ReturnEdge(s))
  {
    hide *;
    var i := Target(s.ebuf, Filling);
    SwapParts(cfg, s, false);
    EdgeReturns(cfg, s.ebuf, s.chunkCnt, s.confirmed, s.edgesOut, i);
    ReturnEdgeIs(s, i);
    var eb := s.ebuf[i].(events := 0).SwitchState(Ready);
    var ebuf' := s.ebuf[i := eb];
    FillEdgeTarget(s.ebuf, i, eb);
    OtherEdge(cfg, s.ebuf, ebuf', s.inbuf, s.aggr.vertex, s.ready.vertex, s.confirmed, s.inputsOut, false);
    OtherEdgeToDo(cfg, s.ebuf, ebuf', s.inbuf, s.confirmed);
    EdgesSwap(cfg, s, ebuf', s.chunkCnt, s.edgesOut - 1, false);
    KeptBy(cfg, s, s.(ebuf := ebuf', edgesOut := s.edgesOut - 1));
  }

  predicate Arrives(b: Spm, b': Spm) {
    var c := b.(events := b.events - 1);
    b' == if c.events == 0 then c.SwitchState(Ready) else c
  }

  lemma InputPair(cfg: Setup, eb: Spm, e: nat, b: Spm, o: Spm, b': Spm)
    requires PairOk(cfg, eb, e, b, o, false) && b.state == Filling && b.events > 0 && Arrives(b, b')
    ensures PairOk(cfg, eb, e, b', o, false)
  {
  }

  lemma InputReturns(cfg: Setup, ebuf: seq<Spm>, inbuf: seq<Spm>, inputsOut: nat, i: nat, b: Spm)
    requires InputsOk(cfg, ebuf, inbuf, inputsOut, false) && inputsOut > 0 && i == Target(inbuf, Filling)
    requires i < 2 ==> Arrives(inbuf[i], b)
    ensures i < 2 && b.state != Draining && InputsOk(cfg, ebuf, inbuf[i := b], inputsOut - 1, false)
  {
    TargetOfTwo(inbuf, Filling);
    var e := Target(ebuf, Draining);
    assert Has(ebuf, Draining);
    if i == 1 {
      PairTurned(cfg, ebuf[e], e, inbuf[0], inbuf[1], false);
    }
    InputPair(cfg, ebuf[e], e, inbuf[i], inbuf[1 - i], b);
    InputsFromPair(cfg, ebuf, inbuf, inputsOut - 1, false, i, b);
  }

  lemma ReturnInputIs(s: Engine, i: nat) returns (b: Spm)
    requires s.inputsOut > 0 && i == Target(s.inbuf, Filling)
    ensures i < |s.inbuf| ==> Arrives(s.inbuf[i], b) && s.inbuf[i].state != Draining
                              && ReturnInput(s) == s.(inbuf := s.inbuf[i := b], inputsOut := s.inputsOut - 1)
  {
    b := if i < |s.inbuf| then ReturnInput(s).inbuf[i] else FreshSpm;
  }

  lemma ReturnInputKeeps(cfg: Setup, s: Engine)
    requires cfg.Valid() && Core(cfg, s, false) && s.inputsOut > 0
    ensures Kept(cfg, s, ReturnInput(s))
  {
    hide *;
    var i := Target(s.inbuf, Filling);
    SwapParts(cfg, s, false);
    SimdParts(cfg, s, false);
    var b := ReturnInputIs(s, i);
    InputReturns(cfg, s.ebuf, s.inbuf, s.inputsOut, i, b);
    var inbuf' := s.inbuf[i := b];
    BindTarget(s.inbuf, i, b);
    InputToDo(cfg, s.ebuf, s.inbuf, inbuf', s.confirmed);
    BindEvents(cfg, s.inbuf, inbuf', s.simds);
    SimdsKeepInbuf(cfg, s.ready.vertex, s.inbuf, inbuf', s.simds);
    BuffersSwap(cfg, s, s.ebuf, inbuf', s.inputsOut - 1, false, false);
    KeptBy(cfg, s, s.(inbuf := inbuf', inputsOut := s.inputsOut - 1));
  }

  lemma InputToDo(cfg: Setup, ebuf: seq<Spm>, inbuf: seq<Spm>, inbuf': seq<Spm>, confirmed: nat)
    requires cfg.Valid() && |inbuf| == |inbuf'| == 2 && Target(inbuf', Draining) == Target(inbuf, Draining)
    requires Target(inbuf, Draining) < 2 ==> inbuf'[Target(inbuf, Draining)] == inbuf[Target(inbuf, Draining)]
    ensures ToDo(cfg, ebuf, inbuf', confirmed) == ToDo(cfg, ebuf, inbuf, confirmed)
  {
  }
}
