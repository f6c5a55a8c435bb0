// The controller as a step machine (dramsim3/src/controller.cc): what one call
// of AddTransaction, ClockTick or ReturnDoneTrans makes of its whole state.
// Class Controller holds the methods; they are proved against these functions.
module ControllerSpec {
  import opened Basics
  import opened DramTypes
  import opened Banks
  import opened ChannelSpec
  import opened CommandHistory
  import opened QueueSpec
  import opened RefreshSpec

  // `id` (its place in the order of acceptance) and `data` are not in the
  // source: they say which request a response answers and with what value. No
  // decision of the controller looks at them.
  datatype Transaction = Transaction(addr: int, isWrite: bool, id: nat, data: int, added: nat, complete: nat)

  // The last four fields record what has happened: the accepted transactions,
  // the cells of the memory, the issued commands and the delivered responses.
  // `halted` is set where the source exits.
  datatype Ctrl = Ctrl(
    halted: bool,
    clk: nat,
    channel: Channel,
    queues: Queues,
    refresh: Generator,
    unifiedQ: seq<Transaction>,
    readQ: seq<Transaction>,
    writeBuf: seq<Transaction>,
    pendingRd: map<int, seq<Transaction>>,
    pendingWr: map<int, Transaction>,
    returnQ: seq<Transaction>,
    writeDraining: int,
    log: seq<Transaction>,
    memory: map<int, int>,
    issued: seq<Issued>,
    returned: seq<Transaction>)

  function Cell(memory: map<int, int>, addr: int): int {
    if addr in memory then memory[addr] else 0
  }

  // ------------------------------------------------------- AddTransaction

  function PushTransaction(cfg: Config, s: Ctrl, t: Transaction): Ctrl {
    if cfg.unified then s.(unifiedQ := s.unifiedQ + [t])
    else if t.isWrite then s.(writeBuf := s.writeBuf + [t])
    else s.(readQ := s.readQ + [t])
  }

  function AcceptWrite(cfg: Config, s: Ctrl, t: Transaction): Ctrl {
    var s1 :=
      if t.addr in s.pendingWr
      then s.(pendingWr := s.pendingWr[t.addr := s.pendingWr[t.addr].(data := t.data)])
      else PushTransaction(cfg, s.(pendingWr := s.pendingWr[t.addr := t]), t);
    s1.(returnQ := s1.returnQ + [t.(complete := s.clk + 1)])
  }

  function AcceptRead(cfg: Config, s: Ctrl, t: Transaction): Ctrl {
    if t.addr in s.pendingWr
    then s.(returnQ := s.returnQ + [t.(data := s.pendingWr[t.addr].data, complete := s.clk + 1)])
    else if t.addr in s.pendingRd
    then s.(pendingRd := s.pendingRd[t.addr := s.pendingRd[t.addr] + [t]])
    else PushTransaction(cfg, s.(pendingRd := s.pendingRd[t.addr := [t]]), t)
  }

  function Accept(cfg: Config, s: Ctrl, addr: int, isWrite: bool, data: int): Ctrl {
    var t := Transaction(addr, isWrite, |s.log|, data, s.clk, 0);
    var s1 := s.(log := s.log + [t]);
    if isWrite then AcceptWrite(cfg, s1, t) else AcceptRead(cfg, s1, t)
  }

  // ---------------------------------------------------------- IssueCommand

  // All reads waiting for one address, answered together.
  function Answered(waiting: seq<Transaction>, data: int, complete: nat): seq<Transaction> {
    seq(|waiting|, i requires 0 <= i < |waiting| => waiting[i].(data := data, complete := complete))
  }

  function IssueData(cfg: Config, s: Ctrl, cmd: Command): Ctrl {
    if cmd.IsRead() then
      if cmd.hexAddr in s.pendingRd then
        s.(returnQ := s.returnQ + Answered(s.pendingRd[cmd.hexAddr], Cell(s.memory, cmd.hexAddr), s.clk + cfg.readDelay),
           pendingRd := s.pendingRd - {cmd.hexAddr})
      else s.(halted := true)
    else if cmd.IsWrite() then
      if cmd.hexAddr in s.pendingWr then
        s.(memory := s.memory[cmd.hexAddr := s.pendingWr[cmd.hexAddr].data],
           pendingWr := s.pendingWr - {cmd.hexAddr})
      else s.(halted := true)
    else s
  }

  function IssueChannel(cfg: Config, s: Ctrl, cmd: Command): Ctrl {
    if StateAccepts(s.channel, cmd)
    then s.(channel := Apply(cfg, s.channel, cmd, s.clk), issued := s.issued + [Issued(cmd, s.clk)])
    else s.(halted := true)
  }

  function Issue(cfg: Config, s: Ctrl, cmd: Command): Ctrl {
    var s1 := IssueData(cfg, s, cmd);
    if s1.halted then s1 else IssueChannel(cfg, s1, cmd)
  }

  // ---------------------------------------------------- ScheduleTransaction

  function KindFor(cfg: Config, isWrite: bool): CmdKind {
    if cfg.closePage then (if isWrite then WritePrecharge else ReadPrecharge)
    else (if isWrite then Write else Read)
  }

  function TransToCommand(cfg: Config, t: Transaction): Command {
    Command(KindFor(cfg, t.isWrite), cfg.decode(t.addr), t.addr)
  }

  predicate LanesEmpty(q: Queues) {
    forall l :: 0 <= l < |q.lanes| ==> q.lanes[l] == []
  }

  // Start draining the write buffer when it is full, or long while nothing is queued.
  function Draining(cfg: Config, s: Ctrl): int {
    if s.writeDraining == 0 && !cfg.unified &&
       (|s.writeBuf| >= cfg.transQueueSize || (|s.writeBuf| > 8 && LanesEmpty(s.queues)))
    then |s.writeBuf| else s.writeDraining
  }

  datatype Source = FromUnified | FromReads | FromWrites

  function SourceOf(cfg: Config, s: Ctrl): Source {
    if cfg.unified then FromUnified else if s.writeDraining > 0 then FromWrites else FromReads
  }

  function SourceQueue(s: Ctrl, from: Source): seq<Transaction> {
    match from case FromUnified => s.unifiedQ case FromReads => s.readQ case FromWrites => s.writeBuf
  }

  function PopSource(s: Ctrl, from: Source): Ctrl
    requires SourceQueue(s, from) != []
  {
    match from
    case FromUnified => s.(unifiedQ := s.unifiedQ[1..])
    case FromReads => s.(readQ := s.readQ[1..])
    case FromWrites => s.(writeBuf := s.writeBuf[1..])
  }

  function AddCommand(cfg: Config, q: Queues, cmd: Command): Queues {
    var l := LaneOf(cfg, cmd.Bank());
    if 0 <= l < |q.lanes| then q.(lanes := q.lanes[l := q.lanes[l] + [cmd]]) else q
  }

  predicate WillAcceptCommand(cfg: Config, q: Queues, id: BankId) {
    var l := LaneOf(cfg, id);
    0 <= l < |q.lanes| && |q.lanes[l]| < cfg.queueSize
  }

  // Only the head of the queue is looked at.
  function MoveHead(cfg: Config, s: Ctrl): Ctrl {
    var from := SourceOf(cfg, s);
    if SourceQueue(s, from) == [] then s
    else
      var t := SourceQueue(s, from)[0];
      var cmd := TransToCommand(cfg, t);
      if !WillAcceptCommand(cfg, s.queues, cmd.Bank()) then s
      else if !cfg.unified && t.isWrite && t.addr in s.pendingRd then s.(writeDraining := 0)
      else
        var s1 := if !cfg.unified && t.isWrite then s.(writeDraining := s.writeDraining - 1) else s;
        PopSource(s1, from).(queues := AddCommand(cfg, s.queues, cmd))
  }

  function Schedule(cfg: Config, s: Ctrl): Ctrl {
    MoveHead(cfg, s.(writeDraining := Draining(cfg, s)))
  }

  // --------------------------------------------------------------- ClockTick

  function TickRefresh(cfg: Config, s: Ctrl): Ctrl {
    s.(refresh := TickGenerator(cfg, s.refresh), channel := TickRequests(cfg, s.refresh, s.channel))
  }

  // HBM dual command issue: fetch once more and issue the command if it goes to
  // the other bus. The fetch has already taken a column command off its queue.
  function SecondCommand(cfg: Config, s: Ctrl, first: Command): Ctrl {
    var (q, pick) := Fetch(cfg, s.channel, s.queues, |s.queues.lanes|);
    var s1 := s.(queues := q);
    match pick
    case Crash => s1.(halted := true)
    case Nothing => s1
    case Chosen(c) => if c.IsReadWrite() != first.IsReadWrite() then Issue(cfg, s1, c) else s1
  }

  function IssueStep(cfg: Config, s: Ctrl): Ctrl {
    var (q, pick) := FirstPick(cfg, s.channel, s.queues);
    var s1 := s.(queues := q);
    match pick
    case Crash => s1.(halted := true)
    case Nothing => s1
    case Chosen(c) =>
      var s2 := Issue(cfg, s1, c);
      if s2.halted || !cfg.dualCommand then s2 else SecondCommand(cfg, s2, c)
  }

  function EndCycle(s: Ctrl): Ctrl {
    s.(clk := s.clk + 1, queues := s.queues.(clk := s.queues.clk + 1))
  }

  function Tick(cfg: Config, s: Ctrl): Ctrl {
    var s1 := IssueStep(cfg, TickRefresh(cfg, s));
    if s1.halted then s1 else EndCycle(Schedule(cfg, s1))
  }

  // --------------------------------------------------------- ReturnDoneTrans

  function FirstDone(q: seq<Transaction>, clk: nat): (i: nat)
    ensures i <= |q|
    ensures i < |q| ==> q[i].complete <= clk
    ensures forall j :: 0 <= j < i ==> clk < q[j].complete
  {
    if q == [] || clk >= q[0].complete then 0 else 1 + FirstDone(q[1..], clk)
  }

  // One response, if any is due.
  function Deliver(s: Ctrl, clk: nat): Ctrl {
    var i := FirstDone(s.returnQ, clk);
    if i == |s.returnQ| then s
    else s.(returned := s.returned + [s.returnQ[i]], returnQ := Remove(s.returnQ, i))
  }

  // -------------------------------------------------------------------- runs

  datatype Op = OpAccept(addr: int, isWrite: bool, data: int) | OpTick | OpDeliver(at: nat)

  function Step(cfg: Config, s: Ctrl, op: Op): Ctrl {
    if s.halted then s
    else
      match op
      case OpAccept(addr, isWrite, data) => Accept(cfg, s, addr, isWrite, data)
      case OpTick => Tick(cfg, s)
      case OpDeliver(at) => Deliver(s, at)
  }

  function Run(cfg: Config, s: Ctrl, ops: seq<Op>): Ctrl {
    if ops == [] then s else Step(cfg, Run(cfg, s, ops[..|ops| - 1]), ops[|ops| - 1])
  }

  function FreshBanks(cfg: Config): map<BankId, BankState> {
    map r, g, b | 0 <= r < cfg.ranks && 0 <= g < cfg.bankgroups && 0 <= b < cfg.banksPerGroup :: BankId(r, g, b) := Fresh
  }

  function NoWindows(cfg: Config): map<int, seq<nat>> {
    map r | 0 <= r < cfg.ranks && cfg.ValidRank(r) :: []
  }

  function Init(cfg: Config): Ctrl {
    Ctrl(false, 0,
         Channel(FreshBanks(cfg), [], {}, NoWindows(cfg), NoWindows(cfg)),
         Queues(seq(NumLanes(cfg), _ => []), 0, false, {}, 0),
         Generator(0, 0, 0, 0),
         [], [], [], map[], map[], [], 0, [], map[], [], [])
  }
}
