// The theorems about the memory controller, for every configuration and every
// sequence of calls from power-up.
module ControllerTheorems {
  import opened Basics
  import opened DramTypes
  import opened Banks
  import opened ChannelSpec
  import opened CommandHistory
  import opened QueueSpec
  import opened RefreshSpec
  import opened ControllerSpec
  import opened QueueSafety
  import opened ControllerSafety
  import opened Census
  import opened Servicing
  import opened PlainMemory
  import opened ControllerRuns

  // ----------------------------------------------------------------- power-up

  lemma {:induction false} EmptyLanes(lanes: seq<seq<Command>>)
    requires forall l :: 0 <= l < |lanes| ==> lanes[l] == []
    ensures AllLaneKeys(lanes) == multiset{}
  {
    if lanes != [] {
      EmptyLanes(lanes[..|lanes| - 1]);
    }
  }

  lemma FreshChannelAgrees(cfg: Config)
    ensures Agrees(cfg, [], Init(cfg).channel)
  {
    var ch := Init(cfg).channel;
    forall id
      ensures id in ch.banks <==> cfg.ValidBank(id)
    {
      assert id == BankId(id.rank, id.bankgroup, id.bank);
    }
    forall rank | 0 <= rank < cfg.ranks
      ensures rank in ch.fourAw && WindowOf(ch.fourAw, rank) == []
    {
      assert cfg.ValidRank(rank);
    }
  }

  lemma InitSound(cfg: Config)
    requires ConfigOk(cfg)
    ensures Sound(cfg, Init(cfg))
  {
    var s := Init(cfg);
    FreshChannelAgrees(cfg);
    EmptyLanes(s.queues.lanes);
    assert PendingKeys(PartsOf(s)) == {};
    assert Queued(cfg, PartsOf(s));
  }

  lemma {:induction false} RunSound(cfg: Config, ops: seq<Op>)
    requires RunsOk(cfg)
    ensures Sound(cfg, Run(cfg, Init(cfg), ops))
  {
    if ops == [] {
      InitSound(cfg);
    } else {
      RunSound(cfg, ops[..|ops| - 1]);
      StepSound(cfg, Run(cfg, Init(cfg), ops[..|ops| - 1]), ops[|ops| - 1]);
    }
  }

  // ------------------------------------------------------- the hardware rules

  // No run exits, and the commands of every run follow the protocol: every
  // listed gap, the open rows, idle banks for refreshes, and the activation windows.
  lemma HardwareRules(cfg: Config, ops: seq<Op>)
    requires RunsOk(cfg)
    ensures var s := Run(cfg, Init(cfg), ops);
            && !s.halted
            && Protocol(cfg, s.issued)
            && WindowsHold(cfg, s.issued)
  {
    RunSound(cfg, ops);
  }

  // cmd_timing_ is the history rule, and the states are those of the history.
  lemma ArraysEqualHistory(cfg: Config, ops: seq<Op>, id: BankId, kind: CmdKind)
    requires RunsOk(cfg) && cfg.ValidBank(id)
    ensures var s := Run(cfg, Init(cfg), ops);
            && id in s.channel.banks
            && s.channel.banks[id].times[kind] == Earliest(cfg.tables, s.issued, id, kind)
            && RowOf(s.issued, id) ==
                 (if s.channel.banks[id].status == Open then Some(s.channel.banks[id].openRow) else None)
  {
    RunSound(cfg, ops);
    var s := Run(cfg, Init(cfg), ops);
    assert RowAgrees(s.issued, id, s.channel.banks[id]);
  }

  // ---------------------------------------------------------- the plain memory

  function Accepts(ops: seq<Op>): seq<Op> {
    if ops == [] then []
    else
      var last := ops[|ops| - 1];
      Accepts(ops[..|ops| - 1]) + (if last.OpAccept? then [last] else [])
  }

  // A plain memory: the value that the last write left at an address.
  function LastWrite(accepted: seq<Op>, addr: int): int {
    if accepted == [] then 0
    else
      match accepted[|accepted| - 1]
      case OpAccept(a, true, data) => if a == addr then data else LastWrite(accepted[..|accepted| - 1], addr)
      case _ => LastWrite(accepted[..|accepted| - 1], addr)
  }

  predicate Records(log: seq<Transaction>, accepted: seq<Op>) {
    && |log| == |accepted|
    && forall i :: 0 <= i < |log| ==>
         accepted[i].OpAccept? && log[i].addr == accepted[i].addr && log[i].isWrite == accepted[i].isWrite
         && log[i].data == accepted[i].data
  }

  lemma OneMoreRecord(log: seq<Transaction>, accepted: seq<Op>, op: Op, log': seq<Transaction>)
    requires Records(log, accepted)
    requires if op.OpAccept? then |log'| == |log| + 1 && log'[..|log|] == log && log'[|log|].addr == op.addr
                                  && log'[|log|].isWrite == op.isWrite && log'[|log|].data == op.data
             else log' == log
    ensures Records(log', accepted + (if op.OpAccept? then [op] else []))
  {
    if op.OpAccept? {
      forall i | 0 <= i < |log|
        ensures log'[i] == log[i]
      {
        assert log'[..|log|][i] == log[i];
      }
    }
  }

  lemma {:induction false} LogRecords(cfg: Config, ops: seq<Op>)
    requires RunsOk(cfg)
    ensures Records(Run(cfg, Init(cfg), ops).log, Accepts(ops))
  {
    if ops != [] {
      var before := ops[..|ops| - 1];
      LogRecords(cfg, before);
      RunSound(cfg, before);
      StepLog(cfg, Run(cfg, Init(cfg), before), ops[|ops| - 1]);
      OneMoreRecord(Run(cfg, Init(cfg), before).log, Accepts(before), ops[|ops| - 1], Run(cfg, Init(cfg), ops).log);
    }
  }

  lemma StepLog(cfg: Config, s: Ctrl, op: Op)
    requires !s.halted
    ensures Step(cfg, s, op).log ==
              s.log + (if op.OpAccept? then [Transaction(op.addr, op.isWrite, |s.log|, op.data, s.clk, 0)] else [])
  {
    hide Tick;
    if op.OpTick? {
      TickLog(cfg, s);
    }
  }

  lemma IssueDataLog(cfg: Config, s: Ctrl, c: Command)
    ensures IssueData(cfg, s, c).log == s.log
  {
  }

  lemma IssueLog(cfg: Config, s: Ctrl, c: Command)
    ensures Issue(cfg, s, c).log == s.log
  {
    IssueDataLog(cfg, s, c);
    var s1 := IssueData(cfg, s, c);
    assert IssueChannel(cfg, s1, c).log == s1.log;
  }

  lemma MoveLog(cfg: Config, s: Ctrl)
    ensures MoveHead(cfg, s).log == s.log
  {
    MoveBooks(cfg, s);
  }

  lemma TickLog(cfg: Config, s: Ctrl)
    ensures Tick(cfg, s).log == s.log
  {
    var s1 := TickRefresh(cfg, s);
    var (q, pick) := FirstPick(cfg, s1.channel, s1.queues);
    var s2 := s1.(queues := q);
    if pick.Chosen? {
      IssueLog(cfg, s2, pick.cmd);
      var s3 := Issue(cfg, s2, pick.cmd);
      var (q', second) := Fetch(cfg, s3.channel, s3.queues, |s3.queues.lanes|);
      if second.Chosen? {
        IssueLog(cfg, s3.(queues := q'), second.cmd);
      }
    }
    var s4 := IssueStep(cfg, s1);
    assert s4.log == s.log;
    MoveLog(cfg, s4.(writeDraining := Draining(cfg, s4)));
  }

  lemma {:induction false} PeekIsLastWrite(log: seq<Transaction>, accepted: seq<Op>, addr: int)
    requires Records(log, accepted)
    ensures Peek(log, addr) == LastWrite(accepted, addr)
  {
    if log != [] {
      PeekIsLastWrite(log[..|log| - 1], accepted[..|accepted| - 1], addr);
    }
  }

  // Whatever the order in which commands went out, a read is answered with the
  // last value written to its address before it was accepted.
  lemma ReadsSeeLastWrite(cfg: Config, ops: seq<Op>, r: Transaction)
    requires RunsOk(cfg)
    requires r in Run(cfg, Init(cfg), ops).returned && !r.isWrite
    ensures r.id < |Accepts(ops)|
    ensures Accepts(ops)[r.id].OpAccept? && Accepts(ops)[r.id].addr == r.addr && !Accepts(ops)[r.id].isWrite
    ensures r.data == LastWrite(Accepts(ops)[..r.id], r.addr)
  {
    RunSound(cfg, ops);
    LogRecords(cfg, ops);
    var s := Run(cfg, Init(cfg), ops);
    var i :| 0 <= i < |s.returned| && s.returned[i] == r;
    assert ResponseOk(s.log, s.returned[i]);
    PeekIsLastWrite(s.log[..r.id], Accepts(ops)[..r.id], r.addr);
  }

  // ------------------------------------------------------------- exactly once

  // Every accepted transaction is waiting, about to be returned, or returned;
  // one of the three, once.
  lemma ServedExactlyOnce(cfg: Config, ops: seq<Op>, id: nat)
    requires RunsOk(cfg) && id < |Accepts(ops)|
    ensures Accepts(ops)[id].OpAccept?
    ensures var s := Run(cfg, Init(cfg), ops);
            CountWaiting(s.pendingRd, Accepts(ops)[id].addr, id) + Count(s.returnQ, id) + Count(s.returned, id) == 1
  {
    RunSound(cfg, ops);
    LogRecords(cfg, ops);
    assert Count(Run(cfg, Init(cfg), ops).returnQ, id) >= 0;
  }

  // Every pending address has one entry, in a transaction queue or in a command
  // queue; nothing else is queued.
  lemma OneEntryEach(cfg: Config, ops: seq<Op>, k: Key)
    requires RunsOk(cfg)
    ensures var s := Run(cfg, Init(cfg), ops);
            var p := PartsOf(s);
            AllLaneKeys(p.lanes)[k] + WaitingKeys(p)[k] ==
              if k.addr in (if k.isWrite then s.pendingWr.Keys else s.pendingRd.Keys) then 1 else 0
  {
    RunSound(cfg, ops);
    CountedOnce(PartsOf(Run(cfg, Init(cfg), ops)), k);
  }
}
