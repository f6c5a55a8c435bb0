// The command queues with their loops (dramsim3/src/command_queue.cc), proved
// against QueueSpec.
module CommandQueueClass {
  import opened Basics
  import opened DramTypes
  import opened Banks
  import opened ChannelSpec
  import opened QueueSpec
  import opened ControllerSpec
  import opened ChannelClass

  // Only column commands to existing banks are queued.
  predicate Servable(cfg: Config, lane: seq<Command>) {
    forall i :: 0 <= i < |lane| ==> lane[i].IsReadWrite() && cfg.ValidBank(lane[i].Bank())
  }

  lemma FirstReadyStep(cfg: Config, ch: Channel, lane: seq<Command>, clk: nat, i: nat)
    requires i < |lane|
    ensures FirstReady(cfg, ch, lane, clk, i) ==
              match GetReady(cfg, ch, lane[i], clk)
              case Abort => Crash
              case NotReady => FirstReady(cfg, ch, lane, clk, i + 1)
              case Ready(c) =>
                if HeldBack(ch, lane, i, c) then FirstReady(cfg, ch, lane, clk, i + 1) else Chosen(c)
  {
  }

  lemma {:induction false} FindIs(lane: seq<Command>, cmd: Command, i: nat)
    requires i <= |lane| && (i < |lane| ==> SameEntry(lane[i], cmd))
    requires forall j :: 0 <= j < i ==> !SameEntry(lane[j], cmd)
    ensures Find(lane, cmd) == i
  {
    if i > 0 {
      FindIs(lane[1..], cmd, i - 1);
    }
  }

  class CommandQueue {
    const cfg: Config
    const channelState: ChannelState
    var queues: seq<seq<Command>>
    var queueIdx: int
    var isInRef: bool
    var refQIndices: set<int>
    var clk: nat

    ghost function View(): Queues
      reads this
    {
      Queues(queues, queueIdx, isInRef, refQIndices, clk)
    }

    ghost predicate Usable()
      reads this, channelState
    {
      && channelState.cfg == cfg && channelState.AllBanks()
      && |queues| == NumLanes(cfg)
      && (|queues| > 0 ==> 0 <= queueIdx < |queues|)
      && forall l :: 0 <= l < |queues| ==> Servable(cfg, queues[l])
    }

    constructor (cfg: Config, channelState: ChannelState)
      ensures this.cfg == cfg && this.channelState == channelState
      ensures View() == Init(cfg).queues
    {
      this.cfg := cfg;
      this.channelState := channelState;
      queues := seq(NumLanes(cfg), _ => []);
      queueIdx := 0;
      isInRef := false;
      refQIndices := {};
      clk := 0;
    }

    method ClockTick()
      modifies `clk
      ensures clk == old(clk) + 1
    {
      clk := clk + 1;
    }

    // ------------------------------------------------------------- choosing

    method ArbitratePrecharge(lane: seq<Command>, i: nat) returns (may: bool)
      requires i < |lane| && lane[i].Bank() in channelState.bankStates
      ensures may == MayPrecharge(channelState.View(), lane, i)
      ensures var b := channelState.bankStates[lane[i].Bank()];
              may <==> (forall j :: 0 <= j < i ==> lane[j].Bank() != lane[i].Bank())
                       && (b.rowHits < 4 ==> forall j :: i <= j < |lane| && lane[j].Bank() == lane[i].Bank() ==>
                                               lane[j].addr.row != b.openRow)
    {
      var cmd := lane[i];
      for j := 0 to i
        invariant forall m :: 0 <= m < j ==> lane[m].Bank() != cmd.Bank()
      {
        if lane[j].addr.rank == cmd.addr.rank && lane[j].addr.bankgroup == cmd.addr.bankgroup && lane[j].addr.bank == cmd.addr.bank {
          return false;
        }
      }
      var pendingRowHitsExist := false;
      var bank := channelState.bankStates[cmd.Bank()];
      var j := i;
      while j < |lane|
        invariant i <= j <= |lane|
        invariant !pendingRowHitsExist
        invariant forall m :: i <= m < j ==> !(lane[m].addr.row == bank.openRow && lane[m].Bank() == cmd.Bank())
      {
        if lane[j].addr.row == bank.openRow && lane[j].Bank() == cmd.Bank() {
          pendingRowHitsExist := true;
          break;
        }
        j := j + 1;
      }
      var rowHitLimitReached := bank.rowHits >= 4;
      may := !pendingRowHitsExist || rowHitLimitReached;
    }

    method HasRWDependency(lane: seq<Command>, i: nat) returns (waits: bool)
      requires i < |lane|
      ensures waits == WaitsForRead(lane, i)
    {
      for j := 0 to i
        invariant forall m :: 0 <= m < j ==> !SameCellRead(lane[m], lane[i])
      {
        if SameCellRead(lane[j], lane[i]) {
          return true;
        }
      }
      waits := false;
    }

    method GetFirstReadyInQueue(lane: seq<Command>) returns (pick: Pick)
      requires channelState.cfg == cfg && channelState.AllBanks() && Servable(cfg, lane)
      ensures pick == FirstReady(cfg, channelState.View(), lane, clk, 0)
    {
      for i := 0 to |lane|
        invariant FirstReady(cfg, channelState.View(), lane, clk, 0) == FirstReady(cfg, channelState.View(), lane, clk, i)
      {
        FirstReadyStep(cfg, channelState.View(), lane, clk, i);
        var reply := channelState.GetReadyCommand(lane[i], clk);
        match reply {
          case Abort =>
            return Crash;
          case NotReady =>
          case Ready(c) =>
            var heldBack := false;
            if c.kind == Precharge {
              var may := ArbitratePrecharge(lane, i);
              heldBack := !may;
            } else if c.IsWrite() {
              heldBack := HasRWDependency(lane, i);
            }
            if !heldBack {
              return Chosen(c);
            }
        }
      }
      pick := Nothing;
    }

    function GetQueueIndex(id: BankId): int {
      if cfg.perBank
      then id.rank * (cfg.bankgroups * cfg.banksPerGroup) + id.bankgroup * cfg.banksPerGroup + id.bank
      else id.rank
    }

    // False is the exit "cannot find cmd!".
    method EraseRWCommand(cmd: Command) returns (ok: bool)
      modifies `queues
      ensures ok == Erase(cfg, old(View()), cmd).Some?
      ensures View() == if ok then Erase(cfg, old(View()), cmd).value else old(View())
    {
      var l := GetQueueIndex(cmd.Bank());
      if !(0 <= l < |queues|) {
        return false;
      }
      var lane := queues[l];
      var i := 0;
      while i < |lane| && !SameEntry(lane[i], cmd)
        invariant i <= |lane|
        invariant forall j :: 0 <= j < i ==> !SameEntry(lane[j], cmd)
      {
        i := i + 1;
      }
      FindIs(lane, cmd, i);
      ok := i < |lane|;
      if ok {
        queues := queues[l := lane[..i] + lane[i + 1..]];
      }
    }

    method GetNextQueue() returns (lane: seq<Command>)
      requires |queues| > 0 && 0 <= queueIdx < |queues|
      modifies `queueIdx
      ensures View() == NextLane(old(View())) && 0 <= queueIdx < |queues| && lane == queues[queueIdx]
    {
      queueIdx := queueIdx + 1;
      if queueIdx == |queues| {
        queueIdx := 0;
      }
      lane := queues[queueIdx];
    }

    method GetCommandToIssue() returns (pick: Pick)
      requires Usable()
      modifies `queues, `queueIdx
      ensures (View(), pick) == Fetch(cfg, channelState.View(), old(View()), |old(queues)|)
    {
      ghost var ch, was := channelState.View(), View();
      var numQueues := |queues|;
      for i := 0 to numQueues
        invariant queues == old(queues)
        invariant numQueues > 0 ==> 0 <= queueIdx < |queues|
        invariant Fetch(cfg, ch, was, numQueues) == Fetch(cfg, ch, View(), numQueues - i)
      {
        var lane := GetNextQueue();
        if isInRef && queueIdx in refQIndices {
          continue;
        }
        pick := GetFirstReadyInQueue(lane);
        match pick {
          case Crash =>
            return;
          case Nothing =>
          case Chosen(cmd) =>
            if cmd.IsReadWrite() {
              var ok := EraseRWCommand(cmd);
              if !ok {
                pick := Crash;
              }
            }
            return;
        }
      }
      pick := Nothing;
    }

    // --------------------------------------------------------------- refresh

    method GetRefQIndices(ref: Command)
      requires 0 < cfg.bankgroups && 0 < cfg.banksPerGroup && |queues| == NumLanes(cfg)
      modifies `refQIndices
      ensures refQIndices == old(refQIndices) + RefLanes(cfg, ref)
    {
      if ref.kind == Refresh {
        if cfg.perBank {
          var banks := cfg.bankgroups * cfg.banksPerGroup;
          for i := 0 to |queues|
            invariant refQIndices == old(refQIndices) + set m | 0 <= m < i && m / banks == ref.addr.rank
          {
            if i / banks == ref.addr.rank {
              refQIndices := refQIndices + {i};
            }
          }
        } else {
          refQIndices := refQIndices + {ref.addr.rank};
        }
      } else {
        refQIndices := refQIndices + {GetQueueIndex(ref.Bank())};
      }
    }

    method FinishRefresh() returns (pick: Pick)
      requires Usable() && 0 < cfg.bankgroups && 0 < cfg.banksPerGroup
      requires channelState.refreshQ != []
      requires var ref := channelState.refreshQ[0];
               if ref.IsRankCommand() then cfg.ValidRank(ref.addr.rank) else cfg.ValidBank(ref.Bank())
      modifies `isInRef, `refQIndices
      ensures (View(), pick) == QueueSpec.FinishRefresh(cfg, channelState.View(), old(View()))
    {
      var ref := channelState.refreshQ[0];
      if !isInRef {
        GetRefQIndices(ref);
        isInRef := true;
      }
      var reply := channelState.GetReadyCommand(ref, clk);
      match reply {
        case Abort =>
          pick := Crash;
        case NotReady =>
          pick := Nothing;
        case Ready(cmd) =>
          if cmd.IsRefresh() {
            refQIndices := {};
            isInRef := false;
          }
          pick := Chosen(cmd);
      }
    }

    // ---------------------------------------------------------------- filling

    predicate WillAccept(id: BankId)
      reads this
    {
      var l := GetQueueIndex(id);
      0 <= l < |queues| && |queues[l]| < cfg.queueSize
    }

    method QueueEmpty() returns (empty: bool)
      ensures empty == LanesEmpty(View())
    {
      for l := 0 to |queues|
        invariant forall m :: 0 <= m < l ==> queues[m] == []
      {
        if queues[l] != [] {
          return false;
        }
      }
      empty := true;
    }

    // A full queue refuses the command.
    method AddCommand(cmd: Command) returns (ok: bool)
      modifies `queues
      ensures ok == WillAcceptCommand(cfg, old(View()), cmd.Bank())
      ensures View() == if ok then ControllerSpec.AddCommand(cfg, old(View()), cmd) else old(View())
    {
      var l := GetQueueIndex(cmd.Bank());
      ok := 0 <= l < |queues| && |queues[l]| < cfg.queueSize;
      if ok {
        queues := queues[l := queues[l] + [cmd]];
      }
    }
  }
}
