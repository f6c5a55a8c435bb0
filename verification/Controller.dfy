// The refresh generator and the controller (dramsim3/src/refresh.cc,
// dramsim3/src/controller.cc), proved against RefreshSpec and ControllerSpec.
module ControllerClass {
  import opened Basics
  import opened DramTypes
  import opened Banks
  import opened ChannelSpec
  import opened CommandHistory
  import opened QueueSpec
  import opened WriteDrain
  import opened RefreshSpec
  import opened ControllerSpec
  import opened QueueSafety
  import opened ControllerSafety
  import opened Census
  import opened PlainMemory
  import opened ControllerRuns
  import opened ChannelClass
  import opened CommandQueueClass

  class Refresh {
    const cfg: Config
    const channelState: ChannelState
    var clk: nat
    var nextRank: nat
    var nextBg: nat
    var nextBank: nat

    ghost function View(): Generator
      reads this
    {
      Generator(clk, nextRank, nextBg, nextBank)
    }

    constructor (cfg: Config, channelState: ChannelState)
      ensures this.cfg == cfg && this.channelState == channelState
      ensures View() == Init(cfg).refresh
    {
      this.cfg := cfg;
      this.channelState := channelState;
      clk, nextRank, nextBg, nextBank := 0, 0, 0, 0;
    }

    method ClockTick()
      requires 0 < cfg.refreshInterval && GeneratorOk(cfg, View())
      modifies this, channelState`refreshQ
      ensures View() == TickGenerator(cfg, old(View()))
      ensures channelState.View() == TickRequests(cfg, old(View()), old(channelState.View()))
    {
      if clk % cfg.refreshInterval == 0 && clk > 0 {
        InsertRefresh();
      }
      clk := clk + 1;
    }

    method InsertRefresh()
      requires GeneratorOk(cfg, View())
      modifies this, channelState`refreshQ
      ensures View() == Advance(cfg, old(View()))
      ensures channelState.refreshQ ==
                old(channelState.refreshQ) + Requests(cfg, old(View()), channelState.rankIsSref)
    {
      match cfg.policy {
        case RankSimultaneous =>
          for i := 0 to cfg.ranks
            invariant View() == old(View()) && channelState.refreshQ == old(channelState.refreshQ)
            invariant FirstAwake(cfg.ranks, channelState.rankIsSref, 0) == FirstAwake(cfg.ranks, channelState.rankIsSref, i)
          {
            if i !in channelState.rankIsSref {
              channelState.RankNeedRefresh(i, true);
              return;
            }
          }
        case RankStaggered =>
          if nextRank !in channelState.rankIsSref {
            channelState.RankNeedRefresh(nextRank, true);
          }
          IterateNext();
        case BankStaggered =>
          if nextRank !in channelState.rankIsSref {
            channelState.BankNeedRefresh(nextRank, nextBg, nextBank, true);
          }
          IterateNext();
      }
    }

    method IterateNext()
      requires GeneratorOk(cfg, View()) && cfg.policy != RankSimultaneous
      modifies `nextRank, `nextBg, `nextBank
      ensures View() == Advance(cfg, old(View()))
    {
      if cfg.policy == RankStaggered {
        nextRank := (nextRank + 1) % cfg.ranks;
      } else {
        nextBg := (nextBg + 1) % cfg.bankgroups;
        if nextBg == 0 {
          nextBank := (nextBank + 1) % cfg.banksPerGroup;
          if nextBank == 0 {
            nextRank := (nextRank + 1) % cfg.ranks;
          }
        }
      }
    }
  }

  // In a sound state the queues hold column commands to existing banks only.
  lemma UsableFromSafe(cfg: Config, s: Ctrl)
    requires ConfigOk(cfg) && Safe(cfg, s)
    ensures |s.queues.lanes| == NumLanes(cfg) && (|s.queues.lanes| > 0 ==> 0 <= s.queues.next < |s.queues.lanes|)
    ensures forall l :: 0 <= l < |s.queues.lanes| ==> Servable(cfg, s.queues.lanes[l])
    ensures forall id :: id in s.channel.banks <==> cfg.ValidBank(id)
  {
    forall l | 0 <= l < |s.queues.lanes|
      ensures Servable(cfg, s.queues.lanes[l])
    {
      assert LaneOk(cfg, s.queues.lanes[l], l);
      forall i | 0 <= i < |s.queues.lanes[l]|
        ensures s.queues.lanes[l][i].IsReadWrite() && cfg.ValidBank(s.queues.lanes[l][i].Bank())
      {
        assert Placed(cfg, s.queues.lanes[l][i], l);
      }
    }
  }

  lemma FinishKeepsLanes(cfg: Config, s: Ctrl)
    requires ConfigOk(cfg) && Safe(cfg, s) && s.channel.refreshQ != []
    ensures var q := QueueSpec.FinishRefresh(cfg, s.channel, s.queues).0;
            q.lanes == s.queues.lanes && q.next == s.queues.next
  {
    FinishRefreshMeaning(cfg, s);
  }

  predicate Addressed(cfg: Config, c: Command) {
    if c.IsRankCommand() then cfg.ValidRank(c.addr.rank) else cfg.ValidBank(c.Bank())
  }

  lemma LegalIsAddressed(cfg: Config, s: Ctrl, c: Command)
    requires Safe(cfg, s) && Issuable(cfg, s, c)
    ensures Addressed(cfg, c)
  {
    if c.IsRefresh() {
      assert RequestOk(cfg, s.channel.refreshQ[0]);
    }
  }

  // What a cycle issues goes to an existing rank or bank.
  lemma FetchAddressed(cfg: Config, s: Ctrl)
    requires RunsOk(cfg) && Sound(cfg, s)
    ensures var (q, pick) := Fetch(cfg, s.channel, s.queues, |s.queues.lanes|);
            pick.Chosen? ==> Addressed(cfg, pick.cmd)
  {
    var l, i := FetchSafe(cfg, s);
    var (q, pick) := Fetch(cfg, s.channel, s.queues, |s.queues.lanes|);
    if pick.Chosen? {
      LegalIsAddressed(cfg, s.(queues := q), pick.cmd);
    }
  }

  lemma FinishAddressed(cfg: Config, s: Ctrl)
    requires RunsOk(cfg) && Sound(cfg, s) && s.channel.refreshQ != []
    ensures var (q, pick) := QueueSpec.FinishRefresh(cfg, s.channel, s.queues);
            pick.Chosen? ==> Addressed(cfg, pick.cmd)
  {
    FinishRefreshMeaning(cfg, s);
    var (q, pick) := QueueSpec.FinishRefresh(cfg, s.channel, s.queues);
    if pick.Chosen? {
      LegalIsAddressed(cfg, s.(queues := q), pick.cmd);
    }
  }

  lemma FirstPickAddressed(cfg: Config, s: Ctrl)
    requires RunsOk(cfg) && Sound(cfg, s)
    ensures var (q, pick) := FirstPick(cfg, s.channel, s.queues);
            pick.Chosen? ==> Addressed(cfg, pick.cmd)
  {
    if s.channel.refreshQ != [] {
      FinishAddressed(cfg, s);
      RefreshStepSound(cfg, s);
      FetchAddressed(cfg, s.(queues := QueueSpec.FinishRefresh(cfg, s.channel, s.queues).0));
    } else {
      FetchAddressed(cfg, s);
    }
  }

  lemma FirstPickValid(cfg: Config, s: Ctrl)
    requires RunsOk(cfg) && Sound(cfg, s)
    ensures var (q, pick) := FirstPick(cfg, s.channel, s.queues);
            && !pick.Crash?
            && (pick.Nothing? ==> Sound(cfg, s.(queues := q)))
            && (pick.Chosen? ==> Addressed(cfg, pick.cmd)
                                 && FirstIssued(cfg, Issue(cfg, s.(queues := q), pick.cmd), pick.cmd))
  {
    FirstPickSound(cfg, s);
    FirstPickAddressed(cfg, s);
  }

  lemma SecondPickValid(cfg: Config, s: Ctrl)
    requires RunsOk(cfg) && Sound(cfg, s)
    ensures var (q, pick) := Fetch(cfg, s.channel, s.queues, |s.queues.lanes|);
            !pick.Crash? && (pick.Chosen? ==> Addressed(cfg, pick.cmd))
  {
    var l, i := FetchSafe(cfg, s);
    FetchAddressed(cfg, s);
  }

  lemma SecondRuns(cfg: Config, s: Ctrl, first: Command)
    requires RunsOk(cfg) && Sound(cfg, s)
    requires first.IsReadWrite() ==> ColumnsBlocked(cfg, s.channel, s.clk)
    ensures !SecondCommand(cfg, s, first).halted && !s.halted
    ensures var (q, pick) := Fetch(cfg, s.channel, s.queues, |s.queues.lanes|);
            !pick.Crash? && (pick.Chosen? ==> Addressed(cfg, pick.cmd))
  {
    SecondSound(cfg, s, first);
    SecondPickValid(cfg, s);
  }

  lemma {:induction false} FirstDoneIs(q: seq<Transaction>, at: nat, i: nat)
    requires i <= |q| && (i < |q| ==> q[i].complete <= at)
    requires forall j :: 0 <= j < i ==> at < q[j].complete
    ensures FirstDone(q, at) == i
  {
    if i > 0 {
      FirstDoneIs(q[1..], at, i - 1);
    }
  }

  class Controller {
    const cfg: Config
    const channelState: ChannelState
    const cmdQueue: CommandQueue
    const refresh: Refresh
    var clk: nat
    var unifiedQueue: seq<Transaction>
    var readQueue: seq<Transaction>
    var writeBuffer: seq<Transaction>
    var pendingRdQ: map<int, seq<Transaction>>
    var pendingWrQ: map<int, Transaction>
    var returnQueue: seq<Transaction>
    var writeDraining: int
    // What the source would have left by exit(1).
    var halted: bool
    // What has happened so far, and what the cells hold; not in the source, and
    // no decision below looks at them.
    var log: seq<Transaction>
    var memory: map<int, int>
    var issued: seq<Issued>
    var returned: seq<Transaction>

    ghost function View(): Ctrl
      reads this, channelState, cmdQueue, refresh
    {
      Ctrl(halted, clk, channelState.View(), cmdQueue.View(), refresh.View(), unifiedQueue, readQueue, writeBuffer,
           pendingRdQ, pendingWrQ, returnQueue, writeDraining, log, memory, issued, returned)
    }

    // The parts belong together.
    ghost predicate Wired()
      reads this, channelState, cmdQueue, refresh
    {
      && channelState.cfg == cfg && cmdQueue.cfg == cfg && refresh.cfg == cfg
      && cmdQueue.channelState == channelState && refresh.channelState == channelState
    }

    ghost predicate Valid()
      reads this, channelState, cmdQueue, refresh
    {
      Wired() && RunsOk(cfg) && Sound(cfg, View())
    }

    constructor (cfg: Config)
      requires RunsOk(cfg)
      ensures this.cfg == cfg && View() == Init(cfg) && Wired()
      ensures fresh(channelState) && fresh(cmdQueue) && fresh(refresh)
    {
      this.cfg := cfg;
      var ch := new ChannelState(cfg);
      channelState := ch;
      cmdQueue := new CommandQueue(cfg, ch);
      refresh := new Refresh(cfg, ch);
      clk := 0;
      unifiedQueue, readQueue, writeBuffer := [], [], [];
      pendingRdQ, pendingWrQ := map[], map[];
      returnQueue := [];
      writeDraining := 0;
      halted := false;
      log, memory, issued, returned := [], map[], [], [];
    }

    // -------------------------------------------------------- AddTransaction

    predicate WillAcceptTransaction(isWrite: bool)
      reads this
    {
      if cfg.unified then |unifiedQueue| < cfg.transQueueSize
      else if !isWrite then |readQueue| < cfg.transQueueSize
      else |writeBuffer| < cfg.transQueueSize
    }

    method PushTransaction(trans: Transaction)
      modifies `unifiedQueue, `readQueue, `writeBuffer
      ensures View() == ControllerSpec.PushTransaction(cfg, old(View()), trans)
    {
      if cfg.unified {
        unifiedQueue := unifiedQueue + [trans];
      } else if trans.isWrite {
        writeBuffer := writeBuffer + [trans];
      } else {
        readQueue := readQueue + [trans];
      }
    }

    // Always takes the transaction; `data` is what a write stores.
    method AddTransaction(addr: int, isWrite: bool, data: int)
      modifies this
      ensures View() == Accept(cfg, old(View()), addr, isWrite, data)
    {
      var trans := Transaction(addr, isWrite, |log|, data, clk, 0);
      log := log + [trans];
      if trans.isWrite {
        AddWrite(trans);
      } else {
        AddRead(trans);
      }
    }

    method AddWrite(trans: Transaction)
      modifies this
      ensures View() == AcceptWrite(cfg, old(View()), trans)
    {
      if trans.addr !in pendingWrQ {
        pendingWrQ := pendingWrQ[trans.addr := trans];
        PushTransaction(trans);
      } else {
        pendingWrQ := pendingWrQ[trans.addr := pendingWrQ[trans.addr].(data := trans.data)];
      }
      returnQueue := returnQueue + [trans.(complete := clk + 1)];
    }

    method AddRead(trans: Transaction)
      modifies this
      ensures View() == AcceptRead(cfg, old(View()), trans)
    {
      if trans.addr in pendingWrQ {
        returnQueue := returnQueue + [trans.(data := pendingWrQ[trans.addr].data, complete := clk + 1)];
        return;
      }
      var first := trans.addr !in pendingRdQ;
      pendingRdQ := pendingRdQ[trans.addr := if first then [trans] else pendingRdQ[trans.addr] + [trans]];
      if first {
        PushTransaction(trans);
      }
    }

    // ---------------------------------------------------------- IssueCommand

    // All reads pending for the address are answered, in the order in which they came.
    method AnswerReads(addr: int)
      requires addr in pendingRdQ
      modifies `pendingRdQ, `returnQueue
      ensures pendingRdQ == old(pendingRdQ) - {addr}
      ensures returnQueue == old(returnQueue) + Answered(old(pendingRdQ)[addr], Cell(memory, addr), clk + cfg.readDelay)
    {
      var waiting := pendingRdQ[addr];
      var numReads := |waiting|;
      while numReads > 0
        invariant 0 <= numReads <= |waiting| && pendingRdQ == old(pendingRdQ)
        invariant returnQueue == old(returnQueue) +
                    Answered(waiting, Cell(memory, addr), clk + cfg.readDelay)[..|waiting| - numReads]
      {
        var it := waiting[|waiting| - numReads];
        returnQueue := returnQueue + [it.(data := Cell(memory, addr), complete := clk + cfg.readDelay)];
        numReads := numReads - 1;
      }
      ghost var all := Answered(waiting, Cell(memory, addr), clk + cfg.readDelay);
      assert all[..|waiting|] == all;
      pendingRdQ := pendingRdQ - {addr};
    }

    method UpdatePending(cmd: Command)
      requires !halted
      modifies `pendingRdQ, `pendingWrQ, `returnQueue, `memory, `halted
      ensures View() == IssueData(cfg, old(View()), cmd)
    {
      if cmd.IsRead() {
        if cmd.hexAddr !in pendingRdQ {
          halted := true;
          return;
        }
        AnswerReads(cmd.hexAddr);
      } else if cmd.IsWrite() {
        if cmd.hexAddr !in pendingWrQ {
          halted := true;
          return;
        }
        memory := memory[cmd.hexAddr := pendingWrQ[cmd.hexAddr].data];
        pendingWrQ := pendingWrQ - {cmd.hexAddr};
      }
    }

    method IssueToChannel(cmd: Command)
      requires Wired() && channelState.AllBanks() && !halted
      requires if cmd.IsRankCommand() then cfg.ValidRank(cmd.addr.rank) else cfg.ValidBank(cmd.Bank())
      modifies `issued, `halted, channelState
      ensures halted == IssueChannel(cfg, old(View()), cmd).halted
      ensures !halted ==> View() == IssueChannel(cfg, old(View()), cmd) && channelState.AllBanks()
    {
      hide Apply, StateAccepts;
      var ok := channelState.UpdateTimingAndStates(cmd, clk);
      if !ok {
        halted := true;
        return;
      }
      issued := issued + [Issued(cmd, clk)];
    }

    method IssueCommand(cmd: Command)
      requires Wired() && channelState.AllBanks() && !halted
      requires if cmd.IsRankCommand() then cfg.ValidRank(cmd.addr.rank) else cfg.ValidBank(cmd.Bank())
      modifies this, channelState
      ensures halted == Issue(cfg, old(View()), cmd).halted
      ensures !halted ==> View() == Issue(cfg, old(View()), cmd) && channelState.AllBanks()
    {
      UpdatePending(cmd);
      if !halted {
        IssueToChannel(cmd);
      }
    }

    // --------------------------------------------------- ScheduleTransaction

    method TransToCommand(trans: Transaction) returns (cmd: Command)
      ensures cmd == ControllerSpec.TransToCommand(cfg, trans)
    {
      var addr := cfg.decode(trans.addr);
      var kind;
      if !cfg.closePage {
        kind := if trans.isWrite then Write else Read;
      } else {
        kind := if trans.isWrite then WritePrecharge else ReadPrecharge;
      }
      cmd := Command(kind, addr, trans.addr);
    }

    method ScheduleTransaction()
      requires Wired()
      modifies this, cmdQueue
      ensures View() == Schedule(cfg, old(View()))
      ensures !cfg.unified && Sorted(cfg, PartsOf(old(View()))) && 0 <= old(writeDraining) ==> MovedByRule(cfg, old(View()), View())
    {
      if !cfg.unified && Sorted(cfg, PartsOf(View())) && 0 <= writeDraining {
        ScheduleRule(cfg, View());
      }
      hide MovedByRule, Sorted;
      if writeDraining == 0 && !cfg.unified {
        var empty := cmdQueue.QueueEmpty();
        if |writeBuffer| >= cfg.transQueueSize || (|writeBuffer| > 8 && empty) {
          writeDraining := |writeBuffer|;
        }
      }
      MoveTransaction();
    }

    method PopQueue(from: Source)
      requires SourceQueue(View(), from) != []
      modifies `unifiedQueue, `readQueue, `writeBuffer
      ensures View() == PopSource(old(View()), from)
    {
      match from {
        case FromUnified => unifiedQueue := unifiedQueue[1..];
        case FromReads => readQueue := readQueue[1..];
        case FromWrites => writeBuffer := writeBuffer[1..];
      }
    }

    // The head of the queue becomes a queued command.
    method MoveOn(from: Source, cmd: Command)
      requires Wired() && SourceQueue(View(), from) != []
      requires WillAcceptCommand(cfg, cmdQueue.View(), cmd.Bank())
      modifies this, cmdQueue
      ensures View() == PopSource(old(View()), from).(queues := ControllerSpec.AddCommand(cfg, old(cmdQueue.View()), cmd))
    {
      var ok := cmdQueue.AddCommand(cmd);
      PopQueue(from);
    }

    // The loop over the chosen queue leaves after its first round.
    method MoveTransaction()
      requires Wired()
      modifies this, cmdQueue
      ensures View() == MoveHead(cfg, old(View()))
    {
      var from := if cfg.unified then FromUnified else if writeDraining > 0 then FromWrites else FromReads;
      var queue := match from case FromUnified => unifiedQueue case FromReads => readQueue case FromWrites => writeBuffer;
      if queue != [] {
        MoveFirst(from, queue[0]);
      }
    }

    method MoveFirst(from: Source, it: Transaction)
      requires Wired() && from == SourceOf(cfg, View())
      requires SourceQueue(View(), from) != [] && it == SourceQueue(View(), from)[0]
      modifies this, cmdQueue
      ensures View() == MoveHead(cfg, old(View()))
    {
      var cmd := TransToCommand(it);
      if !cmdQueue.WillAccept(cmd.Bank()) {
        return;
      }
      if !cfg.unified && cmd.IsWrite() {
        if it.addr in pendingRdQ {
          writeDraining := 0;
          return;
        }
        writeDraining := writeDraining - 1;
      }
      MoveOn(from, cmd);
    }

    // ------------------------------------------------------- ReturnDoneTrans

    // The first response that is due, or none.
    method ReturnDoneTrans(at: nat) returns (r: Option<Transaction>)
      modifies `returnQueue, `returned
      ensures View() == Deliver(old(View()), at)
      ensures r == (if FirstDone(old(returnQueue), at) < |old(returnQueue)|
                    then Some(old(returnQueue)[FirstDone(old(returnQueue), at)]) else None)
    {
      var i := 0;
      while i < |returnQueue|
        invariant i <= |returnQueue| && returnQueue == old(returnQueue) && returned == old(returned)
        invariant forall j :: 0 <= j < i ==> at < returnQueue[j].complete
      {
        if at >= returnQueue[i].complete {
          FirstDoneIs(returnQueue, at, i);
          r := Some(returnQueue[i]);
          returned := returned + [returnQueue[i]];
          returnQueue := returnQueue[..i] + returnQueue[i + 1..];
          return;
        }
        i := i + 1;
      }
      FirstDoneIs(returnQueue, at, i);
      r := None;
    }

    // --------------------------------------------------------------- ClockTick

    // The first choice of a cycle: a refresh or its precharge, else a queued command.
    method PickFirst() returns (pick: Pick)
      requires Valid()
      modifies cmdQueue
      ensures var (q, p) := FirstPick(cfg, channelState.View(), old(cmdQueue.View()));
              cmdQueue.View() == q && pick == p
    {
      UsableFromSafe(cfg, View());
      hide Fetch, Fence, RefLanes, GetReady, NumLanes, Agrees, LaneOk, Servable;
      pick := Nothing;
      if channelState.refreshQ != [] {
        assert RequestOk(cfg, channelState.refreshQ[0]);
        FinishKeepsLanes(cfg, View());
        pick := cmdQueue.FinishRefresh();
      }
      if pick.Nothing? {
        pick := cmdQueue.GetCommandToIssue();
      }
    }

    // The commands of one cycle.
    method IssueCommands()
      requires Valid()
      modifies this, channelState, cmdQueue
      ensures View() == IssueStep(cfg, old(View())) && Valid()
    {
      ghost var was := View();
      IssueStepSound(cfg, was);
      FirstPickValid(cfg, was);
      AgreesIsOk(cfg, was.issued, was.channel);
      var pick := PickFirst();
      assert View() == was.(queues := FirstPick(cfg, was.channel, was.queues).0);
      if pick.Chosen? {
        IssueCommand(pick.cmd);
        if cfg.dualCommand {
          IssueSecond(pick.cmd);
        }
      }
    }

    method PickSecond() returns (pick: Pick)
      requires Valid()
      modifies cmdQueue
      ensures var (q, p) := Fetch(cfg, channelState.View(), old(cmdQueue.View()), |old(cmdQueue.View()).lanes|);
              cmdQueue.View() == q && pick == p
    {
      UsableFromSafe(cfg, View());
      pick := cmdQueue.GetCommandToIssue();
    }

    method IssueSecond(first: Command)
      requires Valid() && (first.IsReadWrite() ==> ColumnsBlocked(cfg, channelState.View(), clk))
      modifies this, channelState, cmdQueue
      ensures View() == SecondCommand(cfg, old(View()), first)
    {
      ghost var was := View();
      SecondRuns(cfg, was, first);
      UsableFromSafe(cfg, was);
      var second := PickSecond();
      assert View() == was.(queues := cmdQueue.View());
      if second.Chosen? && second.cmd.IsReadWrite() != first.IsReadWrite() {
        IssueCommand(second.cmd);
      }
    }

    method InsertRequests()
      requires Valid()
      modifies this, channelState, refresh
      ensures View() == TickRefresh(cfg, old(View())) && Valid()
    {
      TickRefreshSound(cfg, View());
      refresh.ClockTick();
    }

    method EndCycle()
      requires Wired()
      modifies this, cmdQueue
      ensures View() == ControllerSpec.EndCycle(Schedule(cfg, old(View())))
    {
      ScheduleTransaction();
      clk := clk + 1;
      cmdQueue.ClockTick();
    }

    method ClockTick()
      requires Valid()
      modifies this, channelState, cmdQueue, refresh
      ensures View() == Tick(cfg, old(View())) && Valid()
    {
      TickSound(cfg, View());
      InsertRequests();
      IssueCommands();
      EndCycle();
    }
  }
}
