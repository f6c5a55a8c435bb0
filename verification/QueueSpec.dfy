// What the command queues choose and keep (dramsim3/src/command_queue.cc), as
// functions. CommandQueue holds the methods with the source's loops.
module QueueSpec {
  import opened Basics
  import opened DramTypes
  import opened Banks
  import opened ChannelSpec

  // lanes is queues_, one per bank or per rank; next is queue_idx_; refLanes is
  // ref_q_indices_.
  datatype Queues = Queues(lanes: seq<seq<Command>>, next: int, inRef: bool, refLanes: set<int>, clk: nat)

  // What looking for a command to issue yields. Crash stands for the exits
  // "Unknown type!" and "cannot find cmd!".
  datatype Pick = Crash | Nothing | Chosen(cmd: Command)

  function NumLanes(cfg: Config): nat {
    if cfg.perBank then cfg.bankgroups * cfg.banksPerGroup * cfg.ranks else cfg.ranks
  }

  function LaneOf(cfg: Config, id: BankId): int {
    if cfg.perBank
    then id.rank * (cfg.bankgroups * cfg.banksPerGroup) + id.bankgroup * cfg.banksPerGroup + id.bank
    else id.rank
  }

  // ArbitratePrecharge: close the row under another command only if this is the
  // oldest command of its bank and nothing queued from here on still hits the
  // open row, or the row has been hit four times.
  predicate MayPrecharge(ch: Channel, lane: seq<Command>, i: nat)
    requires i < |lane|
  {
    var cmd := lane[i];
    && (forall j :: 0 <= j < i ==> lane[j].Bank() != cmd.Bank())
    && cmd.Bank() in ch.banks
    && var b := ch.banks[cmd.Bank()];
       || b.rowHits >= 4
       || forall j :: i <= j < |lane| ==> !(lane[j].addr.row == b.openRow && lane[j].Bank() == cmd.Bank())
  }

  // HasRWDependency: an older read of the same cell is still queued. (The rank
  // is not compared; all commands of a queue have the same rank.)
  predicate WaitsForRead(lane: seq<Command>, i: nat)
    requires i < |lane|
  {
    exists j :: 0 <= j < i && SameCellRead(lane[j], lane[i])
  }

  predicate SameCellRead(older: Command, cmd: Command) {
    && older.IsRead()
    && older.addr.row == cmd.addr.row && older.addr.column == cmd.addr.column
    && older.addr.bank == cmd.addr.bank && older.addr.bankgroup == cmd.addr.bankgroup
  }

  // The queued command at i is passed over although the channel is ready for c.
  predicate HeldBack(ch: Channel, lane: seq<Command>, i: nat, c: Command)
    requires i < |lane|
  {
    if c.kind == Precharge then !MayPrecharge(ch, lane, i)
    else c.IsWrite() && WaitsForRead(lane, i)
  }

  function FirstReady(cfg: Config, ch: Channel, lane: seq<Command>, clk: nat, i: nat): Pick
    requires i <= |lane|
    decreases |lane| - i
  {
    if i == |lane| then Nothing
    else
      match GetReady(cfg, ch, lane[i], clk)
      case Abort => Crash
      case NotReady => FirstReady(cfg, ch, lane, clk, i + 1)
      case Ready(c) =>
        if HeldBack(ch, lane, i, c) then FirstReady(cfg, ch, lane, clk, i + 1) else Chosen(c)
  }

  predicate SameEntry(a: Command, b: Command) {
    a.hexAddr == b.hexAddr && a.kind == b.kind
  }

  // The first entry of the lane that is this command.
  function Find(lane: seq<Command>, cmd: Command): (i: nat)
    ensures i <= |lane|
    ensures i < |lane| ==> SameEntry(lane[i], cmd)
    ensures forall j :: 0 <= j < i ==> !SameEntry(lane[j], cmd)
  {
    if lane == [] then 0 else if SameEntry(lane[0], cmd) then 0 else 1 + Find(lane[1..], cmd)
  }

  // EraseRWCommand. A command that is not there is the exit "cannot find cmd!".
  function Erase(cfg: Config, q: Queues, cmd: Command): Option<Queues> {
    var l := LaneOf(cfg, cmd.Bank());
    if 0 <= l < |q.lanes| && Find(q.lanes[l], cmd) < |q.lanes[l]|
    then Some(q.(lanes := q.lanes[l := Remove(q.lanes[l], Find(q.lanes[l], cmd))]))
    else None
  }

  function NextLane(q: Queues): Queues {
    q.(next := if q.next + 1 == |q.lanes| then 0 else q.next + 1)
  }

  function Take(cfg: Config, q: Queues, cmd: Command): (Queues, Pick) {
    if cmd.IsReadWrite() then
      match Erase(cfg, q, cmd)
      case Some(q') => (q', Chosen(cmd))
      case None => (q, Crash)
    else (q, Chosen(cmd))
  }

  // GetCommandToIssue: look at each lane once, round robin from the one after
  // the last visited, leaving out the lanes that wait for a refresh.
  function Fetch(cfg: Config, ch: Channel, q: Queues, n: nat): (Queues, Pick)
    decreases n
  {
    if n == 0 then (q, Nothing)
    else
      var q' := NextLane(q);
      if !(0 <= q'.next < |q'.lanes|) then (q', Crash)
      else if q'.inRef && q'.next in q'.refLanes then Fetch(cfg, ch, q', n - 1)
      else
        match FirstReady(cfg, ch, q'.lanes[q'.next], q'.clk, 0)
        case Nothing => Fetch(cfg, ch, q', n - 1)
        case Crash => (q', Crash)
        case Chosen(c) => Take(cfg, q', c)
  }

  // GetRefQIndices.
  function RefLanes(cfg: Config, ref: Command): set<int> {
    if ref.kind == Refresh then
      if cfg.perBank
      then set i | 0 <= i < NumLanes(cfg) && i / (cfg.bankgroups * cfg.banksPerGroup) == ref.addr.rank
      else {ref.addr.rank}
    else {LaneOf(cfg, ref.Bank())}
  }

  // FinishRefresh: fence off the lanes of the oldest refresh request, then ask
  // for the refresh or the precharge that it needs.
  function Fence(cfg: Config, ref: Command, q: Queues): Queues {
    if q.inRef then q else q.(inRef := true, refLanes := q.refLanes + RefLanes(cfg, ref))
  }

  function AnswerFence(q: Queues, reply: Reply): (Queues, Pick) {
    match reply
    case Abort => (q, Crash)
    case NotReady => (q, Nothing)
    case Ready(c) => (if c.IsRefresh() then q.(inRef := false, refLanes := {}) else q, Chosen(c))
  }

  function FinishRefresh(cfg: Config, ch: Channel, q: Queues): (Queues, Pick)
    requires ch.refreshQ != []
  {
    AnswerFence(Fence(cfg, ch.refreshQ[0], q), GetReady(cfg, ch, ch.refreshQ[0], q.clk))
  }

  // What ClockTick tries to issue first.
  function FirstPick(cfg: Config, ch: Channel, q: Queues): (Queues, Pick) {
    if ch.refreshQ != [] && !FinishRefresh(cfg, ch, q).1.Nothing?
    then FinishRefresh(cfg, ch, q)
    else
      var q1 := if ch.refreshQ != [] then FinishRefresh(cfg, ch, q).0 else q;
      Fetch(cfg, ch, q1, |q1.lanes|)
  }
}
