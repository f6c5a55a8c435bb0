// Which transaction a cycle moves to the command queues when reads and writes wait in
// queues of their own: the write drain, said in the queues' own terms.
module WriteDrain {
  import opened Basics
  import opened DramTypes
  import opened Banks
  import opened ChannelSpec
  import opened CommandHistory
  import opened QueueSpec
  import opened RefreshSpec
  import opened ControllerSpec
  import opened ControllerSafety
  import opened Census
  import opened ControllerRuns
  import opened ControllerTheorems

  // ------------------------------------------------------------------ one move

  // The column command of a transaction.
  function CommandOf(cfg: Config, t: Transaction): Command {
    Command(if t.isWrite then (if cfg.closePage then WritePrecharge else Write) else (if cfg.closePage then ReadPrecharge else Read),
            cfg.decode(t.addr), t.addr)
  }

  predicate Room(cfg: Config, q: Queues, t: Transaction) {
    var l := LaneOf(cfg, CommandOf(cfg, t).Bank());
    0 <= l < |q.lanes| && |q.lanes[l]| < cfg.queueSize
  }

  // The transaction's command stands last in its lane, and the other lanes are as before.
  predicate Joins(cfg: Config, lanes: seq<seq<Command>>, lanes': seq<seq<Command>>, t: Transaction) {
    var c := CommandOf(cfg, t);
    var l := LaneOf(cfg, c.Bank());
    0 <= l < |lanes| && lanes' == lanes[l := lanes[l] + [c]]
  }

  // A drain starts with a full write buffer, or with more than eight writes and
  // nothing queued.
  predicate Starts(cfg: Config, m: Ctrl) {
    m.writeDraining == 0 && m.writeBuf != []
    && (|m.writeBuf| >= cfg.transQueueSize || (|m.writeBuf| > 8 && forall l :: 0 <= l < |m.queues.lanes| ==> m.queues.lanes[l] == []))
  }

  // The writes that the drain has yet to move.
  function Left(cfg: Config, m: Ctrl): int { if Starts(cfg, m) then |m.writeBuf| else m.writeDraining }

  // In a drain the oldest write moves if its lane has room, and a pending read of its
  // address ends the drain; otherwise the oldest read moves if its lane has room.
  predicate MovedByRule(cfg: Config, m: Ctrl, s': Ctrl) {
    if Left(cfg, m) > 0 then
      if m.writeBuf == [] || !Room(cfg, m.queues, m.writeBuf[0]) then s' == m.(writeDraining := Left(cfg, m))
      else if m.writeBuf[0].addr in m.pendingRd then s' == m.(writeDraining := 0)
      else
        && s' == m.(writeDraining := Left(cfg, m) - 1, writeBuf := m.writeBuf[1..], queues := m.queues.(lanes := s'.queues.lanes))
        && Joins(cfg, m.queues.lanes, s'.queues.lanes, m.writeBuf[0])
    else
      if m.readQ == [] || !Room(cfg, m.queues, m.readQ[0]) then s' == m
      else
        && s' == m.(readQ := m.readQ[1..], queues := m.queues.(lanes := s'.queues.lanes))
        && Joins(cfg, m.queues.lanes, s'.queues.lanes, m.readQ[0])
  }

  // A drain never has more to move than there are buffered writes.
  predicate DrainOk(s: Ctrl) { 0 <= s.writeDraining <= |s.writeBuf| }

  lemma ScheduleRule(cfg: Config, m: Ctrl)
    requires !cfg.unified && Sorted(cfg, PartsOf(m)) && 0 <= m.writeDraining
    ensures MovedByRule(cfg, m, Schedule(cfg, m))
  {
    DrainingIs(cfg, m);
    hide LaneOf, Draining;
    if Left(cfg, m) > 0 {
      WriteRule(cfg, m.(writeDraining := Left(cfg, m)));
    } else {
      ReadRule(cfg, m);
    }
  }

  lemma DrainingIs(cfg: Config, m: Ctrl)
    requires !cfg.unified && 0 <= m.writeDraining
    ensures Draining(cfg, m) == Left(cfg, m)
  {
  }

  lemma WriteRule(cfg: Config, m: Ctrl)
    requires !cfg.unified && Sorted(cfg, PartsOf(m)) && m.writeDraining > 0
    ensures var s' := MoveHead(cfg, m);
            if m.writeBuf == [] || !Room(cfg, m.queues, m.writeBuf[0]) then s' == m
            else if m.writeBuf[0].addr in m.pendingRd then s' == m.(writeDraining := 0)
            else && s' == m.(writeDraining := m.writeDraining - 1, writeBuf := m.writeBuf[1..], queues := m.queues.(lanes := s'.queues.lanes))
                 && Joins(cfg, m.queues.lanes, s'.queues.lanes, m.writeBuf[0])
  {
    hide LaneOf;
    if m.writeBuf != [] {
      assert m.writeBuf[0].isWrite;
      assert TransToCommand(cfg, m.writeBuf[0]) == CommandOf(cfg, m.writeBuf[0]);
    }
  }

  lemma ReadRule(cfg: Config, m: Ctrl)
    requires !cfg.unified && Sorted(cfg, PartsOf(m)) && m.writeDraining <= 0
    ensures var s' := MoveHead(cfg, m);
            if m.readQ == [] || !Room(cfg, m.queues, m.readQ[0]) then s' == m
            else && s' == m.(readQ := m.readQ[1..], queues := m.queues.(lanes := s'.queues.lanes))
                 && Joins(cfg, m.queues.lanes, s'.queues.lanes, m.readQ[0])
  {
    hide LaneOf;
    if m.readQ != [] {
      assert !m.readQ[0].isWrite;
      assert TransToCommand(cfg, m.readQ[0]) == CommandOf(cfg, m.readQ[0]);
    }
  }

  // ------------------------------------------------------------------ one cycle

  // A cycle after its commands have gone out, and before a transaction moves.
  function Mid(cfg: Config, s: Ctrl): Ctrl { IssueStep(cfg, TickRefresh(cfg, s)) }

  lemma DataKeepsWaiting(cfg: Config, s: Ctrl, c: Command)
    ensures var s' := IssueData(cfg, s, c);
            s'.readQ == s.readQ && s'.writeBuf == s.writeBuf && s'.writeDraining == s.writeDraining && s'.clk == s.clk
            && s'.queues == s.queues
  {
    hide Answered;
  }

  lemma IssueKeepsWaiting(cfg: Config, s: Ctrl, c: Command)
    ensures var s' := Issue(cfg, s, c);
            s'.readQ == s.readQ && s'.writeBuf == s.writeBuf && s'.writeDraining == s.writeDraining && s'.clk == s.clk
            && s'.queues == s.queues
  {
    DataKeepsWaiting(cfg, s, c);
    hide Apply, StateAccepts, IssueData;
  }

  lemma MidKeeps(cfg: Config, s: Ctrl)
    ensures var m := Mid(cfg, s); m.readQ == s.readQ && m.writeBuf == s.writeBuf && m.writeDraining == s.writeDraining && m.clk == s.clk
  {
    hide Issue, Fetch, FirstPick;
    var s1 := TickRefresh(cfg, s);
    var (q, pick) := FirstPick(cfg, s1.channel, s1.queues);
    if pick.Chosen? {
      IssueKeepsWaiting(cfg, s1.(queues := q), pick.cmd);
      var s2 := Issue(cfg, s1.(queues := q), pick.cmd);
      var (q', second) := Fetch(cfg, s2.channel, s2.queues, |s2.queues.lanes|);
      if second.Chosen? {
        IssueKeepsWaiting(cfg, s2.(queues := q'), second.cmd);
      }
    }
  }

  lemma SortedOf(cfg: Config, s: Ctrl)
    requires Sound(cfg, s)
    ensures Sorted(cfg, PartsOf(s)) && !s.halted
  {
  }

  lemma TickIs(cfg: Config, s: Ctrl)
    requires RunsOk(cfg) && Sound(cfg, s) && !cfg.unified && 0 <= s.writeDraining
    ensures MovedByRule(cfg, Mid(cfg, s), Schedule(cfg, Mid(cfg, s)))
    ensures Tick(cfg, s) == EndCycle(Schedule(cfg, Mid(cfg, s)))
  {
    hide RunsOk, Sound, IssueStep, Schedule, TickRefresh, Sorted, MovedByRule;
    RunsConfig(cfg);
    TickRefreshSound(cfg, s);
    IssueStepSound(cfg, TickRefresh(cfg, s));
    SortedOf(cfg, Mid(cfg, s));
    MidKeeps(cfg, s);
    ScheduleRule(cfg, Mid(cfg, s));
  }

  lemma RunsConfig(cfg: Config)
    requires RunsOk(cfg)
    ensures ConfigOk(cfg)
  {
  }

  // A cycle that finds no drain on and a full write buffer (or many writes and nothing
  // queued) moves the oldest write to its lane, unless the lane is full or a read of
  // its address is pending; and it moves no read.
  lemma FullBufferDrains(cfg: Config, s: Ctrl)
    requires RunsOk(cfg) && Sound(cfg, s) && !cfg.unified
    requires s.writeDraining == 0 && s.writeBuf != []
    requires |s.writeBuf| >= cfg.transQueueSize
             || (|s.writeBuf| > 8 && forall l :: 0 <= l < |Mid(cfg, s).queues.lanes| ==> Mid(cfg, s).queues.lanes[l] == [])
    ensures var m, s', t := Mid(cfg, s), Tick(cfg, s), s.writeBuf[0];
            && s'.readQ == s.readQ
            && (Room(cfg, m.queues, t) && t.addr !in m.pendingRd ==>
                  s'.writeBuf == s.writeBuf[1..] && s'.writeDraining == |s.writeBuf| - 1
                  && Joins(cfg, m.queues.lanes, s'.queues.lanes, t))
            && (!Room(cfg, m.queues, t) ==>
                  s'.writeBuf == s.writeBuf && s'.writeDraining == |s.writeBuf| && s'.queues.lanes == m.queues.lanes)
            && (Room(cfg, m.queues, t) && t.addr in m.pendingRd ==>
                  s'.writeBuf == s.writeBuf && s'.writeDraining == 0 && s'.queues.lanes == m.queues.lanes)
  {
    hide RunsOk, Sound, Mid, Schedule, Room, Joins;
    TickIs(cfg, s);
    MidKeeps(cfg, s);
  }

  // With no drain on or starting, the oldest read moves if its lane has room, and no
  // write moves.
  lemma ReadsOtherwise(cfg: Config, s: Ctrl)
    requires RunsOk(cfg) && Sound(cfg, s) && !cfg.unified && s.writeDraining == 0 && !Starts(cfg, Mid(cfg, s))
    ensures var m, s' := Mid(cfg, s), Tick(cfg, s);
            && s'.writeBuf == s.writeBuf && s'.writeDraining == 0
            && if s.readQ != [] && Room(cfg, m.queues, s.readQ[0])
               then s'.readQ == s.readQ[1..] && Joins(cfg, m.queues.lanes, s'.queues.lanes, s.readQ[0])
               else s'.readQ == s.readQ && s'.queues.lanes == m.queues.lanes
  {
    hide RunsOk, Sound, Mid, Schedule, Room, Joins;
    TickIs(cfg, s);
    MidKeeps(cfg, s);
    hide Starts;
  }

  // ------------------------------------------------------------------ a whole drain

  // The transaction that left a queue in one step, by what the queues held.
  function MovedBy(s: Ctrl, s': Ctrl): seq<Transaction> {
    if |s'.writeBuf| < |s.writeBuf| then [s.writeBuf[0]] else if |s'.readQ| < |s.readQ| then [s.readQ[0]] else []
  }

  function MovedIn(cfg: Config, s: Ctrl, ops: seq<Op>): seq<Transaction> {
    if ops == [] then []
    else MovedIn(cfg, s, ops[..|ops| - 1]) + MovedBy(Run(cfg, s, ops[..|ops| - 1]), Run(cfg, s, ops))
  }

  // A drain that was on is off, although nothing has moved.
  predicate Stopped(s: Ctrl, s': Ctrl) { s.writeDraining > 0 && s'.writeDraining == 0 && MovedBy(s, s') == [] }

  predicate NeverStopped(cfg: Config, s: Ctrl, ops: seq<Op>) {
    ops != [] ==>
      NeverStopped(cfg, s, ops[..|ops| - 1]) && !Stopped(Run(cfg, s, ops[..|ops| - 1]), Run(cfg, s, ops))
  }

  // One step of a drain with n writes to go: the oldest of them moves, or nothing does.
  predicate Drains(s: Ctrl, s': Ctrl) {
    && (MovedBy(s, s') == [] || (s.writeBuf != [] && MovedBy(s, s') == [s.writeBuf[0]]))
    && s.readQ <= s'.readQ
    && (MovedBy(s, s') == [] ==> s.writeBuf <= s'.writeBuf && (s'.writeDraining == s.writeDraining || s'.writeDraining == 0))
    && (MovedBy(s, s') != [] ==> s.writeBuf != [] && s.writeBuf[1..] == s'.writeBuf && s'.writeDraining == s.writeDraining - 1)
  }

  lemma DrainTick(cfg: Config, s: Ctrl)
    requires RunsOk(cfg) && Sound(cfg, s) && !cfg.unified && 0 < s.writeDraining <= |s.writeBuf|
    ensures Drains(s, Tick(cfg, s)) && DrainOk(Tick(cfg, s))
    ensures Stopped(s, Tick(cfg, s)) ==> s.writeBuf[0].addr in Mid(cfg, s).pendingRd
  {
    hide RunsOk, Sound, Mid, Schedule, Room, Joins;
    TickIs(cfg, s);
    MidKeeps(cfg, s);
  }

  lemma AcceptAppends(cfg: Config, s: Ctrl, addr: int, isWrite: bool, data: int)
    ensures var s' := Accept(cfg, s, addr, isWrite, data);
            && s'.writeDraining == s.writeDraining && s.writeBuf <= s'.writeBuf && s.readQ <= s'.readQ
  {
  }

  lemma DrainStep(cfg: Config, s: Ctrl, op: Op)
    requires RunsOk(cfg) && Sound(cfg, s) && !cfg.unified && 0 < s.writeDraining <= |s.writeBuf|
    ensures Drains(s, Step(cfg, s, op)) && DrainOk(Step(cfg, s, op))
  {
    hide Sound, Tick, Accept, Deliver, RunsOk;
    SortedOf(cfg, s);
    match op {
      case OpTick => DrainTick(cfg, s);
      case OpAccept(addr, isWrite, data) => AcceptAppends(cfg, s, addr, isWrite, data);
      case OpDeliver(at) => DeliverKeeps(s, at);
    }
  }

  lemma DeliverKeeps(s: Ctrl, at: nat)
    ensures var s' := Deliver(s, at); s'.writeBuf == s.writeBuf && s'.readQ == s.readQ && s'.writeDraining == s.writeDraining
  {
  }

  // As long as it is on, and unless a pending read stops it, a drain with n writes to
  // go moves exactly these, oldest first, and no read before the last of them.
  lemma {:induction false} DrainServesWrites(cfg: Config, s: Ctrl, ops: seq<Op>)
    requires RunsOk(cfg) && Sound(cfg, s) && !cfg.unified && 0 < s.writeDraining <= |s.writeBuf|
    requires NeverStopped(cfg, s, ops)
    ensures var mv, s', n := MovedIn(cfg, s, ops), Run(cfg, s, ops), s.writeDraining;
            && mv[..Min(|mv|, n)] == s.writeBuf[..Min(|mv|, n)]
            && Sound(cfg, s')
            && (|mv| < n ==> s'.writeDraining == n - |mv| <= |s'.writeBuf| && s.writeBuf[|mv|..] <= s'.writeBuf)
  {
    hide RunsOk, Sound, Step, Drains, Stopped;
    if ops != [] {
      var before, op := ops[..|ops| - 1], ops[|ops| - 1];
      DrainServesWrites(cfg, s, before);
      var mid := Run(cfg, s, before);
      StepSound(cfg, mid, op);
      var mv := MovedIn(cfg, s, before);
      MovesOne(mid, Step(cfg, mid, op));
      if |mv| < s.writeDraining {
        DrainStep(cfg, mid, op);
        DrainOne(s, mid, Step(cfg, mid, op), mv);
      }
    }
  }

  lemma MovesOne(s: Ctrl, s': Ctrl)
    ensures |MovedBy(s, s')| <= 1
  {
  }

  lemma DrainOne(s: Ctrl, mid: Ctrl, s': Ctrl, mv: seq<Transaction>)
    requires |mv| < s.writeDraining <= |s.writeBuf| && mv == s.writeBuf[..|mv|]
    requires mid.writeDraining == s.writeDraining - |mv| <= |mid.writeBuf| && s.writeBuf[|mv|..] <= mid.writeBuf
    requires Drains(mid, s') && !Stopped(mid, s') && DrainOk(s')
    ensures var mv' := mv + MovedBy(mid, s');
            && mv' == s.writeBuf[..|mv'|] && |mv'| <= s.writeDraining
            && s'.writeDraining == s.writeDraining - |mv'| <= |s'.writeBuf| && s.writeBuf[|mv'|..] <= s'.writeBuf
  {
    assert mid.writeBuf[0] == s.writeBuf[|mv|];
    hide MovedBy;
  }

  // A write leaves its buffer only in a drain, on every run.
  lemma WritesOnlyInDrain(cfg: Config, ops: seq<Op>)
    requires RunsOk(cfg) && !cfg.unified && ops != []
    ensures var s, s' := Run(cfg, Init(cfg), ops[..|ops| - 1]), Run(cfg, Init(cfg), ops);
            |s'.writeBuf| < |s.writeBuf| ==> s.writeDraining > 0 || Starts(cfg, Mid(cfg, s))
  {
    hide Run, Init, RunsOk, Sound, Mid, Schedule, Tick, Accept, Deliver;
    var before, op := ops[..|ops| - 1], ops[|ops| - 1];
    var s := Run(cfg, Init(cfg), before);
    RunSound(cfg, before);
    RunDrainOk(cfg, before);
    SortedOf(cfg, s);
    LastStep(cfg, ops);
    match op {
      case OpTick =>
        TickIs(cfg, s);
        MidKeeps(cfg, s);
      case OpAccept(addr, isWrite, data) => AcceptAppends(cfg, s, addr, isWrite, data);
      case OpDeliver(at) => DeliverKeeps(s, at);
    }
  }

  lemma LastStep(cfg: Config, ops: seq<Op>)
    requires ops != []
    ensures Run(cfg, Init(cfg), ops) == Step(cfg, Run(cfg, Init(cfg), ops[..|ops| - 1]), ops[|ops| - 1])
  {
    hide Step;
  }

  lemma StepDrainOk(cfg: Config, s: Ctrl, op: Op)
    requires RunsOk(cfg) && Sound(cfg, s) && !cfg.unified && DrainOk(s)
    ensures DrainOk(Step(cfg, s, op))
  {
    hide RunsOk, Sound, Mid, Schedule, Tick, Accept, Deliver, Room, Joins;
    SortedOf(cfg, s);
    match op {
      case OpTick =>
        TickIs(cfg, s);
        MidKeeps(cfg, s);
      case OpAccept(addr, isWrite, data) => AcceptAppends(cfg, s, addr, isWrite, data);
      case OpDeliver(at) => DeliverKeeps(s, at);
    }
  }

  lemma {:induction false} RunDrainOk(cfg: Config, ops: seq<Op>)
    requires RunsOk(cfg) && !cfg.unified
    ensures DrainOk(Run(cfg, Init(cfg), ops))
  {
    if ops != [] {
      RunDrainOk(cfg, ops[..|ops| - 1]);
      RunSound(cfg, ops[..|ops| - 1]);
      StepDrainOk(cfg, Run(cfg, Init(cfg), ops[..|ops| - 1]), ops[|ops| - 1]);
    }
  }

  // ------------------------------------------------------------------ lane sizes

  predicate Bounded(cfg: Config, lanes: seq<seq<Command>>) { forall l :: 0 <= l < |lanes| ==> |lanes[l]| <= cfg.queueSize }

  lemma TakeBounded(cfg: Config, q: Queues, c: Command)
    requires Bounded(cfg, q.lanes)
    ensures Bounded(cfg, Take(cfg, q, c).0.lanes)
  {
    hide LaneOf;
  }

  lemma {:induction false} FetchBounded(cfg: Config, ch: Channel, q: Queues, n: nat)
    requires Bounded(cfg, q.lanes)
    ensures Bounded(cfg, Fetch(cfg, ch, q, n).0.lanes)
    decreases n
  {
    hide Take, FirstReady;
    if n > 0 {
      var q' := NextLane(q);
      FetchBounded(cfg, ch, q', n - 1);
      if 0 <= q'.next < |q'.lanes| {
        var pick := FirstReady(cfg, ch, q'.lanes[q'.next], q'.clk, 0);
        if pick.Chosen? {
          TakeBounded(cfg, q', pick.cmd);
        }
      }
    }
  }

  lemma FirstPickBounded(cfg: Config, ch: Channel, q: Queues)
    requires Bounded(cfg, q.lanes)
    ensures Bounded(cfg, FirstPick(cfg, ch, q).0.lanes)
  {
    hide Fetch, GetReady, RefLanes;
    var q1 := if ch.refreshQ != [] then FinishRefresh(cfg, ch, q).0 else q;
    FetchBounded(cfg, ch, q1, |q1.lanes|);
  }

  lemma MidBounded(cfg: Config, s: Ctrl)
    requires Bounded(cfg, s.queues.lanes)
    ensures Bounded(cfg, Mid(cfg, s).queues.lanes)
  {
    hide Issue, Fetch, FirstPick, Bounded;
    var s1 := TickRefresh(cfg, s);
    var (q, pick) := FirstPick(cfg, s1.channel, s1.queues);
    FirstPickBounded(cfg, s1.channel, s1.queues);
    if pick.Chosen? {
      IssueKeepsWaiting(cfg, s1.(queues := q), pick.cmd);
      var s2 := Issue(cfg, s1.(queues := q), pick.cmd);
      FetchBounded(cfg, s2.channel, s2.queues, |s2.queues.lanes|);
      var (q', second) := Fetch(cfg, s2.channel, s2.queues, |s2.queues.lanes|);
      if second.Chosen? {
        IssueKeepsWaiting(cfg, s2.(queues := q'), second.cmd);
      }
    }
  }

  lemma MoveBounded(cfg: Config, s: Ctrl)
    requires Bounded(cfg, s.queues.lanes)
    ensures Bounded(cfg, MoveHead(cfg, s).queues.lanes)
  {
    hide LaneOf, PopSource, SourceOf, TransToCommand;
  }

  lemma StepBounded(cfg: Config, s: Ctrl, op: Op)
    requires Bounded(cfg, s.queues.lanes)
    ensures Bounded(cfg, Step(cfg, s, op).queues.lanes)
  {
    hide Mid, IssueStep, MoveHead, Draining, Accept, Deliver, Bounded;
    match op {
      case OpTick =>
        MidIs(cfg, s);
        MidBounded(cfg, s);
        MoveBounded(cfg, Mid(cfg, s).(writeDraining := Draining(cfg, Mid(cfg, s))));
      case OpAccept(addr, isWrite, data) => AcceptKeepsLanes(cfg, s, addr, isWrite, data);
      case OpDeliver(at) => DeliverKeepsLanes(s, at);
    }
  }

  lemma MidIs(cfg: Config, s: Ctrl)
    ensures Mid(cfg, s) == IssueStep(cfg, TickRefresh(cfg, s))
  {
    hide IssueStep, TickRefresh;
  }

  lemma AcceptKeepsLanes(cfg: Config, s: Ctrl, addr: int, isWrite: bool, data: int)
    ensures Accept(cfg, s, addr, isWrite, data).queues == s.queues
  {
  }

  lemma DeliverKeepsLanes(s: Ctrl, at: nat)
    ensures Deliver(s, at).queues == s.queues
  {
  }

  // On every run no command queue is longer than its size.
  lemma {:induction false} LanesBounded(cfg: Config, ops: seq<Op>)
    ensures Bounded(cfg, Run(cfg, Init(cfg), ops).queues.lanes)
  {
    hide Step;
    if ops != [] {
      LanesBounded(cfg, ops[..|ops| - 1]);
      StepBounded(cfg, Run(cfg, Init(cfg), ops[..|ops| - 1]), ops[|ops| - 1]);
    }
  }
}
