// One bank: its state machine and the earliest issue time of every kind of
// command (dramsim3/src/bankstate.cc). The source keeps banks by value inside
// nested vectors, so a bank is a value here.
module Banks {
  import opened Basics
  import opened DramTypes

  // cmd_timing_: one entry for every kind of command.
  type Times = m: map<CmdKind, nat> | forall k: CmdKind :: k in m witness ZeroTimes

  const ZeroTimes: map<CmdKind, nat> := map k: CmdKind | true :: 0

  datatype Status = Open | Closed | SelfRefresh

  // What asking for a command yields: AbruptExit, "not now", or the command to issue.
  datatype Reply = Abort | NotReady | Ready(cmd: Command)

  const U64: int := 0x1_0000_0000_0000_0000

  // uint64_t + int: a negative sum wraps around.
  function AddCycles(clk: nat, gap: int): (time: nat)
    ensures time >= clk + gap
    ensures 0 <= clk + gap ==> time == clk + gap
  {
    if 0 <= clk + gap then clk + gap else (clk + gap) % U64
  }

  datatype BankState = BankState(status: Status, times: Times, openRow: int, rowHits: nat) {

    // The kind of command that must go out before (or as) `cmd`; None is the
    // "Unknown type!" exit.
    function RequiredKind(cmd: Command): Option<CmdKind> {
      match status
      case Closed =>
        if cmd.IsReadWrite() then Some(Activate)
        else if cmd.IsRefresh() || cmd.kind == SrefEnter then Some(cmd.kind)
        else None
      case Open =>
        if cmd.IsReadWrite() then
          Some(if cmd.addr.row == openRow then cmd.kind else Precharge)
        else if cmd.IsRefresh() || cmd.kind == SrefEnter then Some(Precharge)
        else None
      case SelfRefresh =>
        if cmd.IsReadWrite() then Some(SrefExit) else None
    }

    function GetReadyCommand(cmd: Command, clk: nat): Reply {
      match RequiredKind(cmd)
      case None => Abort
      case Some(kind) =>
        if clk >= times[kind] then Ready(Command(kind, cmd.addr, cmd.hexAddr)) else NotReady
    }

    // None is AbruptExit.
    function UpdateState(cmd: Command): Option<BankState> {
      match status
      case Open =>
        (match cmd.kind
         case Read | Write => Some(this.(rowHits := rowHits + 1))
         case ReadPrecharge | WritePrecharge | Precharge =>
           Some(this.(status := Closed, openRow := -1, rowHits := 0))
         case _ => None)
      case Closed =>
        (match cmd.kind
         case Refresh | RefreshBank => Some(this)
         case Activate => Some(this.(status := Open, openRow := cmd.addr.row))
         case SrefEnter => Some(this.(status := SelfRefresh))
         case _ => None)
      case SelfRefresh =>
        if cmd.kind == SrefExit then Some(this.(status := Closed)) else None
    }

    function UpdateTiming(kind: CmdKind, time: nat): BankState {
      this.(times := times[kind := Max(times[kind], time)])
    }
  }

  const Fresh: BankState := BankState(Closed, ZeroTimes, -1, 0)

  // The bank allows the command at this time: its state machine accepts it, its
  // timing entry has passed, a column command meets its own row open, and only a
  // closed bank is activated or refreshed.
  predicate Fits(b: BankState, cmd: Command, clk: nat) {
    && b.times[cmd.kind] <= clk
    && b.UpdateState(cmd).Some?
    && (cmd.IsReadWrite() ==> b.status == Open && b.openRow == cmd.addr.row)
    && (cmd.IsRefresh() || cmd.kind == Activate ==> b.status == Closed)
    && (cmd.kind == Precharge ==> b.status == Open)
  }

  // Whatever an awake bank hands out for a request, that bank allows.
  lemma ReadyFits(b: BankState, cmd: Command, clk: nat)
    requires b.status != SelfRefresh
    requires cmd.IsReadWrite() || cmd.IsRefresh()
    ensures var r := b.GetReadyCommand(cmd, clk);
            && !r.Abort?
            && (r.Ready? ==>
                  && Fits(b, r.cmd, clk)
                  && r.cmd.addr == cmd.addr && r.cmd.hexAddr == cmd.hexAddr
                  && (r.cmd.kind == cmd.kind || r.cmd.kind == Precharge || (r.cmd.kind == Activate && cmd.IsReadWrite())))
  {
  }
}
