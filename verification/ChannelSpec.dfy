// What the channel's queries answer and what its updates do, as functions of
// the whole channel (dramsim3/src/channel_state.cc). ChannelState holds the
// methods with the source's loops; they are proved against these functions.
module ChannelSpec {
  import opened Basics
  import opened DramTypes
  import opened Banks

  // banks is bank_states_ by coordinates; fourAw and thirtyTwoAw are the
  // activation windows by rank.
  datatype Channel = Channel(
    banks: map<BankId, BankState>,
    refreshQ: seq<Command>,
    selfRefreshing: set<int>,
    fourAw: map<int, seq<nat>>,
    thirtyTwoAw: map<int, seq<nat>>)

  ghost predicate Shaped(cfg: Config, ch: Channel) {
    && (forall id :: id in ch.banks <==> cfg.ValidBank(id))
    && (forall rank :: 0 <= rank < cfg.ranks ==> rank in ch.fourAw && rank in ch.thirtyTwoAw)
  }

  // ---------------------------------------------------------------- queries

  const FourWindow: nat := 4
  const ThirtyTwoWindow: nat := 32

  predicate WindowReady(window: seq<nat>, size: nat, clk: nat) {
    !(0 < |window| && clk < window[0] && |window| >= size)
  }

  function WindowOf(windows: map<int, seq<nat>>, rank: int): seq<nat> {
    if rank in windows then windows[rank] else []
  }

  predicate ActivationWindowOk(cfg: Config, ch: Channel, rank: int, clk: nat) {
    && WindowReady(WindowOf(ch.fourAw, rank), FourWindow, clk)
    && (cfg.gddr ==> WindowReady(WindowOf(ch.thirtyTwoAw, rank), ThirtyTwoWindow, clk))
  }

  function ReplyOf(ch: Channel, id: BankId, cmd: Command, clk: nat): Reply {
    if id in ch.banks then ch.banks[id].GetReadyCommand(cmd, clk) else Abort
  }

  // A bank that ends the scan for a rank command: it wants another command
  // first (or is in a state in which the source exits).
  predicate Stops(ch: Channel, id: BankId, cmd: Command, clk: nat) {
    var r := ReplyOf(ch, id, cmd, clk);
    r.Abort? || (r.Ready? && r.cmd.kind != cmd.kind)
  }

  // The first such bank, in the source's scan order from (j, k) on.
  function FirstStop(cfg: Config, ch: Channel, cmd: Command, clk: nat, j: nat, k: nat): (r: Option<BankId>)
    decreases cfg.bankgroups - j, cfg.banksPerGroup - k
  {
    if j >= cfg.bankgroups then None
    else if k >= cfg.banksPerGroup then FirstStop(cfg, ch, cmd, clk, j + 1, 0)
    else if Stops(ch, BankId(cmd.addr.rank, j, k), cmd, clk) then Some(BankId(cmd.addr.rank, j, k))
    else FirstStop(cfg, ch, cmd, clk, j, k + 1)
  }

  predicate AllReady(cfg: Config, ch: Channel, cmd: Command, clk: nat) {
    forall j, k :: 0 <= j < cfg.bankgroups && 0 <= k < cfg.banksPerGroup ==>
      ReplyOf(ch, BankId(cmd.addr.rank, j, k), cmd, clk).Ready?
  }

  function StopReply(ch: Channel, id: BankId, cmd: Command, clk: nat): Reply {
    match ReplyOf(ch, id, cmd, clk)
    case Ready(c) => Ready(Command(c.kind, Address(-1, id.rank, id.bankgroup, id.bank, -1, -1), c.hexAddr))
    case other => other
  }

  function RankReply(cfg: Config, ch: Channel, cmd: Command, clk: nat): Reply {
    match FirstStop(cfg, ch, cmd, clk, 0, 0)
    case Some(id) => StopReply(ch, id, cmd, clk)
    case None =>
      if cfg.bankgroups > 0 && cfg.banksPerGroup > 0 && AllReady(cfg, ch, cmd, clk) then Ready(cmd) else NotReady
  }

  function BankReply(cfg: Config, ch: Channel, cmd: Command, clk: nat): Reply {
    var r := ReplyOf(ch, cmd.Bank(), cmd, clk);
    if r.Ready? && r.cmd.kind == Activate && !ActivationWindowOk(cfg, ch, cmd.addr.rank, clk) then NotReady else r
  }

  function GetReady(cfg: Config, ch: Channel, cmd: Command, clk: nat): Reply {
    if cmd.IsRankCommand() then RankReply(cfg, ch, cmd, clk) else BankReply(cfg, ch, cmd, clk)
  }

  // ---------------------------------------------------------------- updates

  // Which refresh requests a finished refresh command answers.
  predicate Answers(done: Command, request: Command) {
    if done.kind == Refresh then request.addr.rank == done.addr.rank else request.Bank() == done.Bank()
  }

  // The refresh queue without the first request that `done` answers.
  function Retire(q: seq<Command>, done: Command): seq<Command> {
    if q == [] then []
    else if Answers(done, q[0]) then q[1..]
    else [q[0]] + Retire(q[1..], done)
  }

  predicate Reaches(cmd: Command, id: BankId) {
    if cmd.IsRankCommand() then id.rank == cmd.addr.rank else id == cmd.Bank()
  }

  // Every bank the command reaches accepts it.
  predicate StateAccepts(ch: Channel, cmd: Command) {
    && (!cmd.IsRankCommand() ==> cmd.Bank() in ch.banks)
    && forall id :: id in ch.banks && Reaches(cmd, id) ==> ch.banks[id].UpdateState(cmd).Some?
  }

  function UpdateState(ch: Channel, cmd: Command): Channel
    requires StateAccepts(ch, cmd)
  {
    ch.(banks := map id | id in ch.banks ::
                   if Reaches(cmd, id) then ch.banks[id].UpdateState(cmd).value else ch.banks[id],
        refreshQ := if cmd.IsRefresh() then Retire(ch.refreshQ, cmd) else ch.refreshQ,
        selfRefreshing := if cmd.kind == SrefEnter then ch.selfRefreshing + {cmd.addr.rank}
                          else if cmd.kind == SrefExit then ch.selfRefreshing - {cmd.addr.rank}
                          else ch.selfRefreshing)
  }

  // The list of constraints that `cmd` puts on bank `id`: the one table whose
  // scope relates the two.
  function ListFor(tables: Tables, cmd: Command, id: BankId): seq<Entry> {
    if cmd.IsRankCommand() then
      (if id.rank == cmd.addr.rank then ListOf(tables.sameRank, cmd.kind) else [])
    else if id.rank != cmd.addr.rank then ListOf(tables.otherRanks, cmd.kind)
    else if id.bankgroup != cmd.addr.bankgroup then ListOf(tables.otherBankgroups, cmd.kind)
    else if id.bank != cmd.addr.bank then ListOf(tables.otherBanks, cmd.kind)
    else ListOf(tables.sameBank, cmd.kind)
  }

  // The earliest time that a list, applied at clk, allows for a kind.
  function Stamp(list: seq<Entry>, kind: CmdKind, clk: nat): nat {
    if list == [] then 0
    else
      var last := list[|list| - 1];
      Max(Stamp(list[..|list| - 1], kind, clk), if last.0 == kind then AddCycles(clk, last.1) else 0)
  }

  function Bump(times: Times, list: seq<Entry>, clk: nat): Times {
    map k: CmdKind | true :: Max(times[k], Stamp(list, k, clk))
  }

  function BumpBanks(tables: Tables, banks: map<BankId, BankState>, cmd: Command, clk: nat): map<BankId, BankState> {
    map id | id in banks :: banks[id].(times := Bump(banks[id].times, ListFor(tables, cmd, id), clk))
  }

  function PushWindow(window: seq<nat>, span: nat, clk: nat): seq<nat> {
    (if window != [] && clk >= window[0] then window[1..] else window) + [clk + span]
  }

  function PushRank(windows: map<int, seq<nat>>, rank: int, span: nat, clk: nat): map<int, seq<nat>> {
    windows[rank := PushWindow(WindowOf(windows, rank), span, clk)]
  }

  function UpdateTiming(cfg: Config, ch: Channel, cmd: Command, clk: nat): Channel {
    ch.(banks := BumpBanks(cfg.tables, ch.banks, cmd, clk),
        fourAw := if cmd.kind == Activate then PushRank(ch.fourAw, cmd.addr.rank, cfg.tFAW, clk) else ch.fourAw,
        thirtyTwoAw := if cmd.kind == Activate && cfg.gddr
                       then PushRank(ch.thirtyTwoAw, cmd.addr.rank, cfg.t32AW, clk) else ch.thirtyTwoAw)
  }

  function Apply(cfg: Config, ch: Channel, cmd: Command, clk: nat): Channel
    requires StateAccepts(ch, cmd)
  {
    UpdateTiming(cfg, UpdateState(ch, cmd), cmd, clk)
  }

  // What one bank makes of a command issued anywhere in the channel.
  function ApplyToBank(tables: Tables, b: BankState, cmd: Command, clk: nat, id: BankId): BankState
    requires Reaches(cmd, id) ==> b.UpdateState(cmd).Some?
  {
    var moved := if Reaches(cmd, id) then b.UpdateState(cmd).value else b;
    moved.(times := Bump(moved.times, ListFor(tables, cmd, id), clk))
  }

  lemma ApplyAt(cfg: Config, ch: Channel, cmd: Command, clk: nat, id: BankId)
    requires StateAccepts(ch, cmd) && id in ch.banks
    ensures id in Apply(cfg, ch, cmd, clk).banks
    ensures Apply(cfg, ch, cmd, clk).banks[id] == ApplyToBank(cfg.tables, ch.banks[id], cmd, clk, id)
  {
    var mid := UpdateState(ch, cmd);
    assert mid.banks[id] == if Reaches(cmd, id) then ch.banks[id].UpdateState(cmd).value else ch.banks[id];
  }

  lemma ApplyKeys(cfg: Config, ch: Channel, cmd: Command, clk: nat)
    requires StateAccepts(ch, cmd)
    ensures Apply(cfg, ch, cmd, clk).banks.Keys == ch.banks.Keys
  {
    var mid := UpdateState(ch, cmd);
    assert mid.banks.Keys == ch.banks.Keys;
    assert BumpBanks(cfg.tables, mid.banks, cmd, clk).Keys == mid.banks.Keys;
  }

  // ------------------------------------------------- what the rank scan means

  lemma {:induction false} FirstStopMeaning(cfg: Config, ch: Channel, cmd: Command, clk: nat, j: nat, k: nat)
    ensures var r := FirstStop(cfg, ch, cmd, clk, j, k);
            && (r.Some? ==>
                  && r.value.rank == cmd.addr.rank
                  && j <= r.value.bankgroup < cfg.bankgroups && 0 <= r.value.bank < cfg.banksPerGroup
                  && Stops(ch, r.value, cmd, clk))
            && (r.None? ==> forall b, a :: (j < b < cfg.bankgroups && 0 <= a < cfg.banksPerGroup)
                                           || (b == j < cfg.bankgroups && k <= a < cfg.banksPerGroup) ==>
                              !Stops(ch, BankId(cmd.addr.rank, b, a), cmd, clk))
    decreases cfg.bankgroups - j, cfg.banksPerGroup - k
  {
    if j >= cfg.bankgroups {
    } else if k >= cfg.banksPerGroup {
      FirstStopMeaning(cfg, ch, cmd, clk, j + 1, 0);
    } else if Stops(ch, BankId(cmd.addr.rank, j, k), cmd, clk) {
    } else {
      FirstStopMeaning(cfg, ch, cmd, clk, j, k + 1);
    }
  }

  // No bank sleeps; the only state the controller can be in with self-refresh off.
  ghost predicate Awake(ch: Channel) {
    forall id :: id in ch.banks ==> ch.banks[id].status != SelfRefresh
  }

  predicate IsRequest(cmd: Command) {
    cmd.IsReadWrite() || cmd.IsRefresh()
  }

  // Every bank the command reaches exists and allows it.
  ghost predicate Legal(ch: Channel, cmd: Command, clk: nat) {
    && (!cmd.IsRankCommand() ==> cmd.Bank() in ch.banks)
    && forall id :: id in ch.banks && Reaches(cmd, id) ==> Fits(ch.banks[id], cmd, clk)
  }

  // What a request gets back: the request itself, or a precharge or (for a
  // column command) an activate that clears the way for it.
  predicate ServesRequest(cmd: Command, reply: Command) {
    && reply.addr.rank == cmd.addr.rank
    && reply.hexAddr == cmd.hexAddr
    && (reply == cmd || reply.kind == Precharge || (reply.kind == Activate && cmd.IsReadWrite()))
    && (cmd.kind != Refresh ==> reply.addr == cmd.addr)
  }

  lemma BankReplyMeaning(cfg: Config, ch: Channel, cmd: Command, clk: nat)
    requires Shaped(cfg, ch) && Awake(ch) && IsRequest(cmd) && cmd.kind != Refresh
    requires cfg.ValidBank(cmd.Bank())
    ensures var r := BankReply(cfg, ch, cmd, clk);
            && !r.Abort?
            && (r.Ready? ==> Legal(ch, r.cmd, clk) && ServesRequest(cmd, r.cmd)
                             && (r.cmd.kind == Activate ==> ActivationWindowOk(cfg, ch, cmd.addr.rank, clk)))
  {
    ReadyFits(ch.banks[cmd.Bank()], cmd, clk);
  }

  lemma AllReadyLegal(cfg: Config, ch: Channel, cmd: Command, clk: nat)
    requires Shaped(cfg, ch) && Awake(ch) && cmd.kind == Refresh
    requires AllReady(cfg, ch, cmd, clk) && FirstStop(cfg, ch, cmd, clk, 0, 0).None?
    ensures Legal(ch, cmd, clk)
  {
    FirstStopMeaning(cfg, ch, cmd, clk, 0, 0);
    forall id | id in ch.banks && Reaches(cmd, id)
      ensures Fits(ch.banks[id], cmd, clk)
    {
      assert id == BankId(cmd.addr.rank, id.bankgroup, id.bank);
      assert !Stops(ch, id, cmd, clk) && ReplyOf(ch, id, cmd, clk).Ready?;
      ReadyFits(ch.banks[id], cmd, clk);
    }
  }

  lemma StopReplyMeaning(cfg: Config, ch: Channel, cmd: Command, clk: nat, id: BankId)
    requires Shaped(cfg, ch) && Awake(ch) && cmd.kind == Refresh
    requires cfg.ValidBank(id) && id.rank == cmd.addr.rank && Stops(ch, id, cmd, clk)
    ensures var r := StopReply(ch, id, cmd, clk);
            && r.Ready? && Legal(ch, r.cmd, clk) && ServesRequest(cmd, r.cmd) && r.cmd.kind == Precharge
  {
    ReadyFits(ch.banks[id], cmd, clk);
  }

  lemma RankReplyMeaning(cfg: Config, ch: Channel, cmd: Command, clk: nat)
    requires Shaped(cfg, ch) && Awake(ch) && cmd.kind == Refresh
    requires 0 <= cmd.addr.rank < cfg.ranks
    ensures var r := RankReply(cfg, ch, cmd, clk);
            && !r.Abort?
            && (r.Ready? ==> Legal(ch, r.cmd, clk) && ServesRequest(cmd, r.cmd) && r.cmd.kind != Activate)
  {
    FirstStopMeaning(cfg, ch, cmd, clk, 0, 0);
    var stop := FirstStop(cfg, ch, cmd, clk, 0, 0);
    if stop.Some? {
      StopReplyMeaning(cfg, ch, cmd, clk, stop.value);
    } else if RankReply(cfg, ch, cmd, clk).Ready? {
      AllReadyLegal(cfg, ch, cmd, clk);
    }
  }

  // On an awake channel no request aborts, and the command that comes back is
  // legal in every bank it reaches.
  lemma ReadyMeaning(cfg: Config, ch: Channel, cmd: Command, clk: nat)
    requires Shaped(cfg, ch) && Awake(ch) && IsRequest(cmd)
    requires if cmd.kind == Refresh then 0 <= cmd.addr.rank < cfg.ranks else cfg.ValidBank(cmd.Bank())
    ensures var r := GetReady(cfg, ch, cmd, clk);
            && !r.Abort?
            && (r.Ready? ==> Legal(ch, r.cmd, clk) && ServesRequest(cmd, r.cmd)
                             && (r.cmd.kind == Activate ==> ActivationWindowOk(cfg, ch, cmd.addr.rank, clk)))
  {
    if cmd.kind == Refresh {
      RankReplyMeaning(cfg, ch, cmd, clk);
    } else {
      BankReplyMeaning(cfg, ch, cmd, clk);
    }
  }
}
