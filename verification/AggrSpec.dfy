// The aggregation engine as a step machine (hygcn/dataflow/aggr.cpp, with
// hardware/spm.h, simd.h and aggr_buf.h): what one clock tick or one returned
// memory event makes of its whole state. Class Aggr holds the methods.
module AggrSpec {
  import opened EdgePartition

  // The consecutive vertices of one edge chunk and the row of each.
  datatype Chunk = Chunk(start: int, rows: Rows)

  // The configuration and the graph. featureChunks is the number of SIMD-wide
  // slices of a feature vector.
  datatype Setup = Setup(chunks: seq<Chunk>, numVertex: int, interval: nat, width: nat, featureChunks: nat,
                         sizeVector: nat, sizeBlock: nat, capacity: nat)
  {
    ghost predicate Valid() {
      && 0 < interval && 0 < featureChunks && 0 < capacity
      && forall c :: 0 <= c < |chunks| ==> ChunkOk(c)
    }

    ghost predicate ChunkOk(c: nat)
      requires c < |chunks|
    {
      && chunks[c].rows != []
      && SourcesBelow(chunks[c].rows, numVertex)
      && chunks[c].start == StartOf(c)
    }

    function Start(): int { if chunks == [] then 0 else chunks[0].start }

    // Chunks are contiguous.
    function StartOf(c: nat): int
      requires c <= |chunks|
    {
      if c == 0 then Start() else StartOf(c - 1) + |chunks[c - 1].rows|
    }

    function PartsOf(c: nat): (parts: seq<Rows>)
      requires Valid() && c < |chunks|
      ensures parts != [] && forall p :: 0 <= p < |parts| ==> |parts[p]| == |chunks[c].rows|
    {
      assert ChunkOk(c);
      Parts(chunks[c].rows, numVertex, interval)
    }
  }

  // ---------------------------------------------------------------- the buffers

  datatype BufState = Filling | Ready | Draining | Idle

  // SPMA, used for edge buffers and for input buffers. partId is not in the
  // source: it records which part of its chunk an input buffer holds.
  datatype Spm = Spm(state: BufState, events: int, start: int, end: int,
                     chunkId: int, partCnt: int, parts: seq<Rows>,
                     edges: Rows, ebuf: int, vertexPtr: int, featureCnt: int, nonEmpty: int, partId: int)
  {
    function SwitchState(s: BufState): Spm {
      match s
      case Idle => Spm(Idle, events, -1, -1, 1, 0, [], [], -1, -1, 0, 0, -1)
      case Ready => this.(state := Ready, vertexPtr := start)
      case _ => this.(state := s)
    }
  }

  const FreshSpm: Spm := Spm(Idle, 0, -1, -1, 1, 0, [], [], -1, -1, 0, 0, -1)

  // The first buffer in a state; their number if there is none.
  function Target(bufs: seq<Spm>, state: BufState): (i: nat)
    ensures i <= |bufs|
    ensures i < |bufs| ==> bufs[i].state == state
    ensures forall j :: 0 <= j < i ==> bufs[j].state != state
  {
    if bufs == [] || bufs[0].state == state then 0 else 1 + Target(bufs[1..], state)
  }

  predicate Has(bufs: seq<Spm>, state: BufState) { Target(bufs, state) < |bufs| }

  predicate AllIdle(bufs: seq<Spm>) { forall i :: 0 <= i < |bufs| ==> bufs[i].state == Idle }

  // ------------------------------------------------------------------- the SIMDs

  // One SIMD job: a slice of the feature vectors of all sources of one row.
  datatype Task = Task(vertex: int, feature: int, row: seq<int>)

  datatype SimdState = Computing | Done | Free

  // row and readAddr are not in the source: they record the job and the address
  // from which its running sum was read.
  datatype Simd = Simd(state: SimdState, depth: int, width: int, vertex: int, feature: int, inbuf: int, macs: nat,
                       row: seq<int>, readAddr: int)
  {
    function ClockTick(): Simd {
      if state != Computing then this
      else
        var counted := this.(depth := depth - 1, macs := macs + (if width < 0 then 0 else width));
        if depth - 1 <= 0 then counted.(depth := 0, width := 0, state := Done) else counted
    }

    function Job(): Task { Task(vertex, feature, row) }

    function Release(): Simd { this.(state := Free, vertex := -1, feature := -1, inbuf := -1) }
  }

  function FreeSimd(simds: seq<Simd>): (i: nat)
    ensures i <= |simds|
    ensures i < |simds| ==> simds[i].state == Free
    ensures forall j :: 0 <= j < i ==> simds[j].state != Free
  {
    if simds == [] || simds[0].state == Free then 0 else 1 + FreeSimd(simds[1..])
  }

  function FreeCount(simds: seq<Simd>): nat {
    if simds == [] then 0 else FreeCount(simds[..|simds| - 1]) + if simds[|simds| - 1].state == Free then 1 else 0
  }

  // ------------------------------------------------------------------- the engine

  // A vertex number and its place in the ring of the aggregation buffer.
  datatype Pointer = Pointer(vertex: int, place: nat)

  // aggr and ready are the two pointers of the aggregation buffer that the engine
  // moves. edgesOut and inputsOut count the memory events that have not come back
  // yet; started, finished and confirmed record what has happened. `failed` is set
  // where an assertion of the source does not hold.
  datatype Engine = Engine(
    failed: bool, ebuf: seq<Spm>, inbuf: seq<Spm>, simds: seq<Simd>,
    chunkCnt: nat, isDone: bool, eventOut: nat, eventIn: nat,
    aggr: Pointer, ready: Pointer,
    edgesOut: nat, inputsOut: nat,
    started: seq<Task>, finished: seq<Task>, confirmed: nat)

  // StartAggr and ConfirmAggr: a pointer moves past n vertices.
  function Advance(cfg: Setup, p: Pointer, n: int): (p': Pointer)
    requires 0 < cfg.capacity
    ensures p'.vertex == p.vertex + n && p'.place < cfg.capacity
  {
    Pointer(p.vertex + n, (cfg.capacity + p.place + n * cfg.sizeVector) % cfg.capacity)
  }

  function WriteAddr(cfg: Setup, ready: Pointer, vertex: int, feature: int): int
    requires 0 < cfg.capacity
  {
    (ready.place + (vertex - ready.vertex) * cfg.sizeVector + feature * cfg.sizeBlock) % cfg.capacity
  }

  // ---------------------------------------------------------------- SIMDs first

  // The edge buffer of a drained input buffer counts the part; with its last part
  // its vertices are confirmed.
  function ConfirmPart(cfg: Setup, s: Engine, e: int): Engine
    requires cfg.Valid()
  {
    if !(0 <= e < |s.ebuf|) then s.(failed := true)
    else
      var eb := s.ebuf[e].(events := s.ebuf[e].events - 1);
      if eb.events != 0 then s.(ebuf := s.ebuf[e := eb])
      else if eb.state != Draining then s.(failed := true)
      else s.(ebuf := s.ebuf[e := eb.SwitchState(Idle)],
              ready := Advance(cfg, s.ready, eb.end - eb.start),
              confirmed := s.confirmed + 1)
  }

  function WriteBack(cfg: Setup, s: Engine, i: nat): Engine
    requires cfg.Valid() && i < |s.simds|
  {
    var d := s.simds[i];
    if !(0 <= d.inbuf < |s.inbuf| && s.inbuf[d.inbuf].state == Draining && d.vertex >= s.ready.vertex)
    then s.(failed := true)
    else
      var ib := s.inbuf[d.inbuf].(events := s.inbuf[d.inbuf].events - 1);
      var s1 := s.(eventOut := s.eventOut + 1, finished := s.finished + [d.Job()], simds := s.simds[i := d.Release()]);
      if ib.events != 0 then s1.(inbuf := s.inbuf[d.inbuf := ib])
      else ConfirmPart(cfg, s1.(inbuf := s.inbuf[d.inbuf := ib.SwitchState(Idle)]), ib.ebuf)
  }

  function StepSimd(cfg: Setup, s: Engine, i: nat): Engine
    requires cfg.Valid() && i < |s.simds|
  {
    var s1 := s.(simds := s.simds[i := s.simds[i].ClockTick()]);
    if s1.simds[i].state == Done then WriteBack(cfg, s1, i) else s1
  }

  // The SIMDs up to the n-th have been clocked.
  function StepSimds(cfg: Setup, s: Engine, n: nat): (s': Engine)
    requires cfg.Valid() && n <= |s.simds|
    ensures |s'.simds| == |s.simds| && s'.chunkCnt == s.chunkCnt
  {
    if n == 0 then s
    else
      var s1 := StepSimds(cfg, s, n - 1);
      if s1.failed then s1 else StepSimd(cfg, s1, n - 1)
  }

  // ------------------------------------------------------------- the data flow

  // Fetch the next chunk into an idle edge buffer.
  function FillEdge(cfg: Setup, s: Engine): Engine
    requires cfg.Valid() && s.chunkCnt <= |cfg.chunks|
  {
    if s.chunkCnt == |cfg.chunks| || !Has(s.ebuf, Idle) || Has(s.ebuf, Filling) then s
    else
      var i := Target(s.ebuf, Idle);
      var c := cfg.chunks[s.chunkCnt];
      s.(ebuf := s.ebuf[i := s.ebuf[i].SwitchState(Filling).(events := 1, chunkId := s.chunkCnt, start := c.start,
                                                             end := c.start + |c.rows|, parts := cfg.PartsOf(s.chunkCnt))],
         edgesOut := s.edgesOut + 1, chunkCnt := s.chunkCnt + 1)
  }

  // The ready edge buffer with the smallest start vertex.
  function FirstReadyChunk(ebuf: seq<Spm>): (i: nat)
    requires Has(ebuf, Ready)
    ensures i < |ebuf| && ebuf[i].state == Ready
    ensures forall j :: 0 <= j < |ebuf| && ebuf[j].state == Ready ==> ebuf[i].start <= ebuf[j].start
  {
    var rest := ebuf[..|ebuf| - 1];
    var last := ebuf[|ebuf| - 1];
    if !Has(rest, Ready) then
      assert last.state == Ready by { assert rest == ebuf[..|ebuf| - 1]; assert ebuf[Target(ebuf, Ready)].state == Ready; }
      |ebuf| - 1
    else
      var i := FirstReadyChunk(rest);
      if last.state == Ready && rest[i].start > last.start then |ebuf| - 1 else i
  }

  // One past the last vertex with a source, or `end` if there is none.
  function LastEnd(rows: Rows, start: int, end: int): (e: int)
    ensures e == end || start < e <= start + |rows|
  {
    if rows == [] then end
    else if rows[|rows| - 1] != [] then start + |rows|
    else LastEnd(rows[..|rows| - 1], start, end)
  }

  function NonEmptyRows(rows: Rows): nat {
    if rows == [] then 0
    else NonEmptyRows(rows[..|rows| - 1]) + if rows[|rows| - 1] == [] then 0 else 1
  }

  // Bind the next part of edge buffer e to input buffer i and ask for its sources.
  function BindPart(s: Engine, i: nat, e: nat): Engine
    requires i < |s.inbuf| && e < |s.ebuf| && 0 <= s.ebuf[e].partCnt < |s.ebuf[e].parts|
  {
    var eb := s.ebuf[e];
    var part := eb.parts[eb.partCnt];
    var n := |Sources(part)|;
    s.(ebuf := s.ebuf[e := eb.(partCnt := eb.partCnt + 1)],
       inbuf := s.inbuf[i := s.inbuf[i].SwitchState(Filling).(events := n, start := eb.start,
                                                              end := LastEnd(part, eb.start, eb.end), edges := part, ebuf := e,
                                                              nonEmpty := s.inbuf[i].nonEmpty + NonEmptyRows(part), partId := eb.partCnt)],
       inputsOut := s.inputsOut + n)
  }

  // Start draining edge buffer e.
  function OpenChunk(cfg: Setup, s: Engine, e: nat): Engine
    requires cfg.Valid() && e < |s.ebuf|
  {
    var eb := s.ebuf[e];
    s.(ebuf := s.ebuf[e := eb.SwitchState(Draining).(events := |eb.parts|)],
       aggr := Advance(cfg, s.aggr, eb.end - eb.start))
  }

  // `will` is the answer of WillAllocate.
  function FillInput(cfg: Setup, s: Engine, will: bool): (s': Engine)
    requires cfg.Valid()
    ensures s'.chunkCnt == s.chunkCnt
  {
    if !Has(s.inbuf, Idle) || Has(s.inbuf, Filling) then s
    else
      var i := Target(s.inbuf, Idle);
      if Has(s.ebuf, Draining) then
        var e := Target(s.ebuf, Draining);
        if 0 <= s.ebuf[e].partCnt < |s.ebuf[e].parts| then BindPart(s, i, e) else s
      else if Has(s.ebuf, Ready) && will then
        var e := FirstReadyChunk(s.ebuf);
        if !(0 <= s.ebuf[e].partCnt < |s.ebuf[e].parts|) then s.(failed := true)
        else BindPart(OpenChunk(cfg, s, e), i, e)
      else s
  }

  // Give the next job of input buffer p to the SIMD k.
  function Assign(cfg: Setup, s: Engine, p: nat, k: nat): Engine
    requires cfg.Valid() && p < |s.inbuf| && k < |s.simds|
    requires 0 <= s.inbuf[p].vertexPtr - s.inbuf[p].start < |s.inbuf[p].edges|
  {
    var b := s.inbuf[p];
    var row := b.edges[b.vertexPtr - b.start];
    if b.vertexPtr < s.ready.vertex then s.(failed := true)
    else
      var addr := WriteAddr(cfg, s.ready, b.vertexPtr, b.featureCnt);
      var b' := if b.featureCnt + 1 == cfg.featureChunks
                then b.(featureCnt := 0, vertexPtr := b.vertexPtr + 1)
                else b.(featureCnt := b.featureCnt + 1);
      s.(simds := s.simds[k := s.simds[k].(state := Computing, depth := |row|, width := cfg.width, vertex := b.vertexPtr,
                                           feature := b.featureCnt, inbuf := p, row := row, readAddr := addr)],
         inbuf := s.inbuf[p := b'],
         eventOut := s.eventOut + 1,
         started := s.started + [Task(b.vertexPtr, b.featureCnt, row)])
  }

  // Keep giving jobs to free SIMDs; empty rows are skipped.
  function Feed(cfg: Setup, s: Engine, p: nat): (s': Engine)
    requires cfg.Valid() && p < |s.inbuf|
    ensures s'.chunkCnt == s.chunkCnt
    decreases s.inbuf[p].end - s.inbuf[p].vertexPtr, FreeCount(s.simds)
  {
    var k := FreeSimd(s.simds);
    var b := s.inbuf[p];
    if s.failed || k == |s.simds| || b.vertexPtr >= b.end then s
    else if !(0 <= b.vertexPtr - b.start < |b.edges|) then s.(failed := true)
    else if b.edges[b.vertexPtr - b.start] == [] then Feed(cfg, s.(inbuf := s.inbuf[p := b.(vertexPtr := b.vertexPtr + 1)]), p)
    else
      FeedDecreases(cfg, s, p, k);
      if Assign(cfg, s, p, k).failed then Assign(cfg, s, p, k) else Feed(cfg, Assign(cfg, s, p, k), p)
  }

  lemma {:induction false} FreeCountTaken(simds: seq<Simd>, k: nat, d: Simd)
    requires k < |simds| && simds[k].state == Free && d.state != Free
    ensures FreeCount(simds[k := d]) == FreeCount(simds) - 1
  {
    var n := |simds| - 1;
    if k < n {
      assert simds[k := d][..n] == simds[..n][k := d];
      FreeCountTaken(simds[..n], k, d);
    } else {
      assert simds[k := d][..n] == simds[..n];
    }
  }

  lemma FeedDecreases(cfg: Setup, s: Engine, p: nat, k: nat)
    requires cfg.Valid() && p < |s.inbuf| && k < |s.simds| && s.simds[k].state == Free
    requires 0 <= s.inbuf[p].vertexPtr - s.inbuf[p].start < |s.inbuf[p].edges|
    ensures var s' := Assign(cfg, s, p, k);
            && |s'.inbuf| == |s.inbuf| && |s'.simds| == |s.simds|
            && (s'.failed || FreeCount(s'.simds) < FreeCount(s.simds))
            && s'.inbuf[p].end == s.inbuf[p].end && s'.inbuf[p].vertexPtr >= s.inbuf[p].vertexPtr
  {
    if !Assign(cfg, s, p, k).failed && !s.failed {
      FreeCountTaken(s.simds, k, Assign(cfg, s, p, k).simds[k]);
    } else {
      FreeCountTaken(s.simds, k, s.simds[k].(state := Computing));
    }
  }

  function Dispatch(cfg: Setup, s: Engine): (s': Engine)
    requires cfg.Valid()
    ensures s'.chunkCnt == s.chunkCnt
  {
    if Has(s.inbuf, Draining) then Feed(cfg, s, Target(s.inbuf, Draining))
    else if Has(s.inbuf, Ready) then
      var p := Target(s.inbuf, Ready);
      var b := s.inbuf[p].(events := s.inbuf[p].nonEmpty * cfg.featureChunks).SwitchState(Draining);
      Feed(cfg, s.(inbuf := s.inbuf[p := b]), p)
    else s
  }

  function GenDataFlow(cfg: Setup, s: Engine, will: bool): (s': Engine)
    requires cfg.Valid() && s.chunkCnt <= |cfg.chunks|
    ensures s'.chunkCnt <= |cfg.chunks|
  {
    if s.isDone then s
    else
      var s1 := FillInput(cfg, FillEdge(cfg, s), will);
      if s1.failed then s1 else Dispatch(cfg, s1)
  }

  function NoteDone(s: Engine): Engine {
    if AllIdle(s.inbuf) && AllIdle(s.ebuf) && s.eventOut == s.eventIn then s.(isDone := true) else s
  }

  function Tick(cfg: Setup, s: Engine, will: bool): (s': Engine)
    requires cfg.Valid() && s.chunkCnt <= |cfg.chunks|
    ensures s'.chunkCnt <= |cfg.chunks|
  {
    var s1 := StepSimds(cfg, s, |s.simds|);
    if s1.failed then s1
    else
      var s2 := GenDataFlow(cfg, s1, will);
      if s2.failed then s2 else NoteDone(s2)
  }

  // ------------------------------------------------------- HandleReturnEvent

  function ReturnEdge(s: Engine): Engine
    requires s.edgesOut > 0
  {
    var i := Target(s.ebuf, Filling);
    if i == |s.ebuf| then s.(failed := true)
    else
      var b := s.ebuf[i].(events := s.ebuf[i].events - 1);
      s.(ebuf := s.ebuf[i := if b.events == 0 then b.SwitchState(Ready) else b], edgesOut := s.edgesOut - 1)
  }

  function ReturnInput(s: Engine): Engine
    requires s.inputsOut > 0
  {
    var i := Target(s.inbuf, Filling);
    if i == |s.inbuf| then s.(failed := true)
    else
      var b := s.inbuf[i].(events := s.inbuf[i].events - 1);
      s.(inbuf := s.inbuf[i := if b.events == 0 then b.SwitchState(Ready) else b], inputsOut := s.inputsOut - 1)
  }

  // ------------------------------------------------------------------------ runs

  // The memory answers in any order and at any time, each event once.
  datatype Op = OpTick(will: bool) | OpEdge | OpInput | OpAggr

  function Step(cfg: Setup, s: Engine, op: Op): (s': Engine)
    requires cfg.Valid() && s.chunkCnt <= |cfg.chunks|
    ensures s'.chunkCnt <= |cfg.chunks|
  {
    if s.failed then s
    else
      match op
      case OpTick(will) => Tick(cfg, s, will)
      case OpEdge => if s.edgesOut > 0 then ReturnEdge(s) else s
      case OpInput => if s.inputsOut > 0 then ReturnInput(s) else s
      case OpAggr => if s.eventIn < s.eventOut then s.(eventIn := s.eventIn + 1) else s
  }

  function Run(cfg: Setup, s: Engine, ops: seq<Op>): (s': Engine)
    requires cfg.Valid() && s.chunkCnt <= |cfg.chunks|
    ensures s'.chunkCnt <= |cfg.chunks|
  {
    if ops == [] then s else Step(cfg, Run(cfg, s, ops[..|ops| - 1]), ops[|ops| - 1])
  }

  function Init(cfg: Setup, numSimds: nat): (s: Engine)
    ensures s.chunkCnt == 0
  {
    var p := Pointer(cfg.Start(), 0);
    Engine(false, [FreshSpm, FreshSpm], [FreshSpm, FreshSpm], seq(numSimds, _ => Simd(Free, 0, 0, -1, -1, -1, 0, [], 0)),
           0, false, 0, 0, p, p, 0, 0, [], [], 0)
  }
}
