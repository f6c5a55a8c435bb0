// The channel with its loops (dramsim3/src/channel_state.cc), proved against
// ChannelSpec.
module ChannelClass {
  import opened Basics
  import opened DramTypes
  import opened Banks
  import opened ChannelSpec
  import opened RefreshSpec
  import opened ControllerSpec

  // The banks that each of the five timing updates reaches.
  datatype Scope = SameBank | OtherBanks | OtherBankgroups | OtherRanks | SameRank

  predicate InScope(scope: Scope, addr: Address, id: BankId) {
    match scope
    case SameBank => id == BankId(addr.rank, addr.bankgroup, addr.bank)
    case OtherBanks => id.rank == addr.rank && id.bankgroup == addr.bankgroup && id.bank != addr.bank
    case OtherBankgroups => id.rank == addr.rank && id.bankgroup != addr.bankgroup
    case OtherRanks => id.rank != addr.rank
    case SameRank => id.rank == addr.rank
  }

  function Bumped(b: BankState, list: seq<Entry>, clk: nat): BankState {
    b.(times := Bump(b.times, list, clk))
  }

  function BumpScope(banks: map<BankId, BankState>, scope: Scope, addr: Address, list: seq<Entry>, clk: nat): map<BankId, BankState> {
    map id | id in banks :: if InScope(scope, addr, id) then Bumped(banks[id], list, clk) else banks[id]
  }

  lemma SameTimes(a: Times, b: Times)
    requires forall k: CmdKind :: a[k] == b[k]
    ensures a == b
  {
  }

  lemma BumpNothing(b: BankState, clk: nat)
    ensures Bumped(b, [], clk) == b
  {
    SameTimes(Bump(b.times, [], clk), b.times);
  }

  lemma StampOneMore(list: seq<Entry>, n: nat, kind: CmdKind, clk: nat)
    requires n < |list|
    ensures Stamp(list[..n + 1], kind, clk) ==
              Max(Stamp(list[..n], kind, clk), if list[n].0 == kind then AddCycles(clk, list[n].1) else 0)
  {
    assert list[..n + 1][..n] == list[..n];
  }

  // The bank's own maximum, entry by entry, is the maximum over the list.
  lemma BumpOneMore(times: Times, list: seq<Entry>, n: nat, clk: nat)
    requires n < |list|
    ensures var before := Bump(times, list[..n], clk);
            before[list[n].0 := Max(before[list[n].0], AddCycles(clk, list[n].1))] == Bump(times, list[..n + 1], clk)
  {
    var before := Bump(times, list[..n], clk);
    var now: Times := before[list[n].0 := Max(before[list[n].0], AddCycles(clk, list[n].1))];
    forall k: CmdKind
      ensures now[k] == Bump(times, list[..n + 1], clk)[k]
    {
      StampOneMore(list, n, k, clk);
    }
    SameTimes(now, Bump(times, list[..n + 1], clk));
  }

  // All banks of one bankgroup but `skip`.
  predicate InGroup(rank: int, bankgroup: int, skip: int, id: BankId) {
    id.rank == rank && id.bankgroup == bankgroup && id.bank != skip
  }

  // The banks chosen by `done` have been updated, the others not.
  ghost predicate Updated(was: map<BankId, BankState>, now: map<BankId, BankState>, done: set<BankId>, list: seq<Entry>, clk: nat) {
    && now.Keys == was.Keys
    && forall id :: id in was ==> now[id] == if id in done then Bumped(was[id], list, clk) else was[id]
  }

  lemma UpdatedOnce(was: map<BankId, BankState>, now: map<BankId, BankState>, next: map<BankId, BankState>,
                    done: set<BankId>, more: set<BankId>, list: seq<Entry>, clk: nat)
    requires Updated(was, now, done, list, clk) && Updated(now, next, more, list, clk) && done !! more
    ensures Updated(was, next, done + more, list, clk)
  {
    forall id | id in was
      ensures next[id] == if id in done + more then Bumped(was[id], list, clk) else was[id]
    {
      assert id in now;
    }
  }

  lemma UpdatedBank(banks: map<BankId, BankState>, id: BankId, list: seq<Entry>, clk: nat)
    requires id in banks
    ensures Updated(banks, banks[id := Bumped(banks[id], list, clk)], {id}, list, clk)
  {
  }

  lemma UpdatedNone(banks: map<BankId, BankState>, list: seq<Entry>, clk: nat)
    ensures Updated(banks, banks, {}, list, clk)
  {
  }

  // The banks of one bankgroup below bank k, but `skip`.
  ghost predicate BanksBelow(banks: map<BankId, BankState>, done: set<BankId>, rank: int, bankgroup: int, skip: int, k: int) {
    forall id :: id in done <==> id in banks && InGroup(rank, bankgroup, skip, id) && id.bank < k
  }

  lemma BankFollows(banks: map<BankId, BankState>, done: set<BankId>, rank: int, bankgroup: int, skip: int, k: int)
    requires BanksBelow(banks, done, rank, bankgroup, skip, k) && k != skip && BankId(rank, bankgroup, k) in banks
    ensures done !! {BankId(rank, bankgroup, k)}
    ensures BanksBelow(banks, done + {BankId(rank, bankgroup, k)}, rank, bankgroup, skip, k + 1)
  {
  }

  lemma BankSkipped(banks: map<BankId, BankState>, done: set<BankId>, rank: int, bankgroup: int, skip: int, k: int)
    requires BanksBelow(banks, done, rank, bankgroup, skip, k) && k == skip
    ensures BanksBelow(banks, done, rank, bankgroup, skip, k + 1)
  {
  }

  // The banks of one rank in the bankgroups below j, but `skip`.
  ghost predicate GroupsBelow(banks: map<BankId, BankState>, done: set<BankId>, rank: int, skip: int, j: int) {
    forall id :: id in done <==> id in banks && id.rank == rank && id.bankgroup != skip && id.bankgroup < j
  }

  lemma GroupFollows(cfg: Config, banks: map<BankId, BankState>, done: set<BankId>, rank: int, skip: int, j: int, more: set<BankId>)
    requires GroupsBelow(banks, done, rank, skip, j) && j != skip
    requires forall id :: id in banks ==> cfg.ValidBank(id)
    requires BanksBelow(banks, more, rank, j, -1, cfg.banksPerGroup)
    ensures done !! more && GroupsBelow(banks, done + more, rank, skip, j + 1)
  {
  }

  lemma GroupSkipped(banks: map<BankId, BankState>, done: set<BankId>, rank: int, skip: int, j: int)
    requires GroupsBelow(banks, done, rank, skip, j) && j == skip
    ensures GroupsBelow(banks, done, rank, skip, j + 1)
  {
  }

  // The banks of rank i join those of the ranks below it.
  ghost predicate RanksBelow(banks: map<BankId, BankState>, done: set<BankId>, skip: int, i: int) {
    forall id :: id in done <==> id in banks && id.rank != skip && id.rank < i
  }

  lemma RankFollows(cfg: Config, banks: map<BankId, BankState>, done: set<BankId>, skip: int, i: int, more: set<BankId>)
    requires RanksBelow(banks, done, skip, i) && i != skip
    requires forall id :: id in banks ==> cfg.ValidBank(id)
    requires GroupsBelow(banks, more, i, -1, cfg.bankgroups)
    ensures done !! more && RanksBelow(banks, done + more, skip, i + 1)
  {
  }

  lemma RankSkipped(banks: map<BankId, BankState>, done: set<BankId>, skip: int, i: int)
    requires RanksBelow(banks, done, skip, i) && i == skip
    ensures RanksBelow(banks, done, skip, i + 1)
  {
  }

  // All banks of all ranks but the command's own.
  lemma RanksScope(cfg: Config, was: map<BankId, BankState>, now: map<BankId, BankState>, done: set<BankId>, list: seq<Entry>, clk: nat,
                   addr: Address)
    requires Updated(was, now, done, list, clk) && RanksBelow(was, done, addr.rank, cfg.ranks)
    requires forall id :: id in was ==> cfg.ValidBank(id)
    ensures now == BumpScope(was, OtherRanks, addr, list, clk)
  {
    UpdatedScope(was, now, done, list, clk, OtherRanks, addr);
  }

  lemma GroupScope(cfg: Config, was: map<BankId, BankState>, now: map<BankId, BankState>, done: set<BankId>, list: seq<Entry>, clk: nat,
                   addr: Address)
    requires Updated(was, now, done, list, clk) && BanksBelow(was, done, addr.rank, addr.bankgroup, addr.bank, cfg.banksPerGroup)
    requires forall id :: id in was ==> cfg.ValidBank(id)
    ensures now == BumpScope(was, OtherBanks, addr, list, clk)
  {
    UpdatedScope(was, now, done, list, clk, OtherBanks, addr);
  }

  lemma GroupsScope(cfg: Config, was: map<BankId, BankState>, now: map<BankId, BankState>, done: set<BankId>, list: seq<Entry>, clk: nat,
                    addr: Address)
    requires Updated(was, now, done, list, clk) && GroupsBelow(was, done, addr.rank, addr.bankgroup, cfg.bankgroups)
    requires forall id :: id in was ==> cfg.ValidBank(id)
    ensures now == BumpScope(was, OtherBankgroups, addr, list, clk)
  {
    UpdatedScope(was, now, done, list, clk, OtherBankgroups, addr);
  }

  lemma RankScope(cfg: Config, was: map<BankId, BankState>, now: map<BankId, BankState>, done: set<BankId>, list: seq<Entry>, clk: nat,
                  addr: Address)
    requires Updated(was, now, done, list, clk) && GroupsBelow(was, done, addr.rank, -1, cfg.bankgroups)
    requires forall id :: id in was ==> cfg.ValidBank(id)
    ensures now == BumpScope(was, SameRank, addr, list, clk)
  {
    UpdatedScope(was, now, done, list, clk, SameRank, addr);
  }

  lemma OneBankScope(was: map<BankId, BankState>, id: BankId, list: seq<Entry>, clk: nat, addr: Address)
    requires id in was && id == BankId(addr.rank, addr.bankgroup, addr.bank)
    ensures was[id := Bumped(was[id], list, clk)] == BumpScope(was, SameBank, addr, list, clk)
  {
    SameBanks(was[id := Bumped(was[id], list, clk)], BumpScope(was, SameBank, addr, list, clk));
  }

  lemma SameKeysSameBanks(cfg: Config, was: map<BankId, BankState>, scope: Scope, addr: Address, list: seq<Entry>, clk: nat)
    requires forall id :: id in was <==> cfg.ValidBank(id)
    ensures forall id :: id in BumpScope(was, scope, addr, list, clk) <==> cfg.ValidBank(id)
  {
  }

  lemma UpdatedScope(was: map<BankId, BankState>, now: map<BankId, BankState>, done: set<BankId>, list: seq<Entry>, clk: nat,
                     scope: Scope, addr: Address)
    requires Updated(was, now, done, list, clk)
    requires forall id :: id in was ==> (id in done <==> InScope(scope, addr, id))
    ensures now == BumpScope(was, scope, addr, list, clk)
  {
  }

  lemma SameBanks(a: map<BankId, BankState>, b: map<BankId, BankState>)
    requires a.Keys == b.Keys && forall id :: id in a ==> a[id] == b[id]
    ensures a == b
  {
  }

  // What one bank gets from the table whose scope it is in.
  lemma RankBump(tables: Tables, b: BankState, cmd: Command, clk: nat, id: BankId)
    requires cmd.IsRankCommand()
    ensures Bumped(b, ListFor(tables, cmd, id), clk) ==
              if InScope(SameRank, cmd.addr, id) then Bumped(b, ListOf(tables.sameRank, cmd.kind), clk) else b
  {
    BumpNothing(b, clk);
    assert ListFor(tables, cmd, id) == if id.rank == cmd.addr.rank then ListOf(tables.sameRank, cmd.kind) else [];
  }

  lemma RankScopeIsBump(tables: Tables, banks: map<BankId, BankState>, cmd: Command, clk: nat)
    requires cmd.IsRankCommand()
    ensures BumpScope(banks, SameRank, cmd.addr, ListOf(tables.sameRank, cmd.kind), clk) == BumpBanks(tables, banks, cmd, clk)
  {
    var a := BumpScope(banks, SameRank, cmd.addr, ListOf(tables.sameRank, cmd.kind), clk);
    forall id | id in banks
      ensures a[id] == Bumped(banks[id], ListFor(tables, cmd, id), clk)
    {
      RankBump(tables, banks[id], cmd, clk, id);
    }
    SameBanks(a, BumpBanks(tables, banks, cmd, clk));
  }

  function ScopeList(tables: Tables, scope: Scope, kind: CmdKind): seq<Entry> {
    match scope
    case SameBank => ListOf(tables.sameBank, kind)
    case OtherBanks => ListOf(tables.otherBanks, kind)
    case OtherBankgroups => ListOf(tables.otherBankgroups, kind)
    case OtherRanks => ListOf(tables.otherRanks, kind)
    case SameRank => ListOf(tables.sameRank, kind)
  }

  function ScopeOf(cmd: Command, id: BankId): Scope {
    if id.rank != cmd.addr.rank then OtherRanks
    else if id.bankgroup != cmd.addr.bankgroup then OtherBankgroups
    else if id.bank != cmd.addr.bank then OtherBanks
    else SameBank
  }

  // For a bank command every bank is in exactly one of four scopes.
  lemma OneScope(tables: Tables, cmd: Command, id: BankId, scope: Scope)
    requires !cmd.IsRankCommand()
    ensures scope != SameRank ==> (InScope(scope, cmd.addr, id) <==> scope == ScopeOf(cmd, id))
    ensures ListFor(tables, cmd, id) == ScopeList(tables, ScopeOf(cmd, id), cmd.kind)
  {
  }

  // The order in which the four scopes are updated.
  function Turn(scope: Scope): nat {
    match scope case SameBank => 0 case OtherBanks => 1 case OtherBankgroups => 2 case OtherRanks => 3 case SameRank => 4
  }

  // The banks in the first n scopes are done.
  ghost predicate ScopesDone(tables: Tables, was: map<BankId, BankState>, now: map<BankId, BankState>, cmd: Command, clk: nat,
                             n: nat) {
    && now.Keys == was.Keys
    && forall id :: id in was ==>
         now[id] == if Turn(ScopeOf(cmd, id)) < n then Bumped(was[id], ListFor(tables, cmd, id), clk) else was[id]
  }

  lemma ScopeStep(tables: Tables, was: map<BankId, BankState>, now: map<BankId, BankState>, next: map<BankId, BankState>,
                  cmd: Command, clk: nat, scope: Scope, list: seq<Entry>, n: nat)
    requires !cmd.IsRankCommand() && scope != SameRank && n == Turn(scope) && list == ScopeList(tables, scope, cmd.kind)
    requires ScopesDone(tables, was, now, cmd, clk, n)
    requires next == BumpScope(now, scope, cmd.addr, list, clk)
    ensures ScopesDone(tables, was, next, cmd, clk, n + 1)
  {
    forall id | id in was
      ensures next[id] == if Turn(ScopeOf(cmd, id)) < n + 1 then Bumped(was[id], ListFor(tables, cmd, id), clk) else was[id]
    {
      OneScope(tables, cmd, id, scope);
      SameTurn(scope, ScopeOf(cmd, id));
    }
  }

  lemma SameTurn(a: Scope, b: Scope)
    ensures Turn(a) == Turn(b) <==> a == b
  {
  }

  lemma AllScopesDone(tables: Tables, was: map<BankId, BankState>, now: map<BankId, BankState>, cmd: Command, clk: nat)
    requires ScopesDone(tables, was, now, cmd, clk, 4)
    ensures now == BumpBanks(tables, was, cmd, clk)
  {
    forall id | id in was
      ensures now[id] == Bumped(was[id], ListFor(tables, cmd, id), clk)
    {
      FourTurns(cmd, id);
    }
    IsBump(tables, was, now, cmd, clk);
  }

  lemma FirstScopes(tables: Tables, was: map<BankId, BankState>, b1: map<BankId, BankState>, b2: map<BankId, BankState>,
                    cmd: Command, clk: nat)
    requires !cmd.IsRankCommand()
    requires b1 == BumpScope(was, SameBank, cmd.addr, ListOf(tables.sameBank, cmd.kind), clk)
    requires b2 == BumpScope(b1, OtherBanks, cmd.addr, ListOf(tables.otherBanks, cmd.kind), clk)
    ensures ScopesDone(tables, was, b2, cmd, clk, 2)
  {
    ScopeStep(tables, was, was, b1, cmd, clk, SameBank, ListOf(tables.sameBank, cmd.kind), 0);
    ScopeStep(tables, was, b1, b2, cmd, clk, OtherBanks, ListOf(tables.otherBanks, cmd.kind), 1);
  }

  lemma LastScopes(tables: Tables, was: map<BankId, BankState>, b2: map<BankId, BankState>, b3: map<BankId, BankState>,
                   b4: map<BankId, BankState>, cmd: Command, clk: nat)
    requires !cmd.IsRankCommand() && ScopesDone(tables, was, b2, cmd, clk, 2)
    requires b3 == BumpScope(b2, OtherBankgroups, cmd.addr, ListOf(tables.otherBankgroups, cmd.kind), clk)
    requires b4 == BumpScope(b3, OtherRanks, cmd.addr, ListOf(tables.otherRanks, cmd.kind), clk)
    ensures ScopesDone(tables, was, b4, cmd, clk, 4)
  {
    ScopeStep(tables, was, b2, b3, cmd, clk, OtherBankgroups, ListOf(tables.otherBankgroups, cmd.kind), 2);
    ScopeStep(tables, was, b3, b4, cmd, clk, OtherRanks, ListOf(tables.otherRanks, cmd.kind), 3);
  }

  lemma FourTurns(cmd: Command, id: BankId)
    ensures Turn(ScopeOf(cmd, id)) < 4
  {
  }

  lemma IsBump(tables: Tables, was: map<BankId, BankState>, now: map<BankId, BankState>, cmd: Command, clk: nat)
    requires now.Keys == was.Keys && forall id :: id in was ==> now[id] == Bumped(was[id], ListFor(tables, cmd, id), clk)
    ensures now == BumpBanks(tables, was, cmd, clk)
  {
    SameBanks(now, BumpBanks(tables, was, cmd, clk));
  }

  lemma {:induction false} RetireNone(q: seq<Command>, done: Command)
    requires forall j :: 0 <= j < |q| ==> !Answers(done, q[j])
    ensures Retire(q, done) == q
  {
    if q != [] {
      RetireNone(q[1..], done);
    }
  }

  lemma {:induction false} RetireFirst(q: seq<Command>, done: Command, i: nat)
    requires i < |q| && Answers(done, q[i])
    requires forall j :: 0 <= j < i ==> !Answers(done, q[j])
    ensures Retire(q, done) == q[..i] + q[i + 1..]
  {
    if i > 0 {
      var rest := q[1..];
      RetireFirst(rest, done, i - 1);
      assert q[..i] == [q[0]] + rest[..i - 1];
      assert q[i + 1..] == rest[i..];
    }
  }

  lemma RetireAt(q: seq<Command>, done: Command, i: nat)
    requires i <= |q| && (i < |q| ==> Answers(done, q[i]))
    requires forall j :: 0 <= j < i ==> !Answers(done, q[j])
    ensures Retire(q, done) == if i < |q| then q[..i] + q[i + 1..] else q
  {
    if i < |q| {
      RetireFirst(q, done, i);
    } else {
      RetireNone(q, done);
    }
  }

  // Retiring looks only at the bank coordinates and the kind.
  lemma {:induction false} RetireSame(q: seq<Command>, a: Command, b: Command)
    requires (a.kind == Refresh <==> b.kind == Refresh) && a.addr.rank == b.addr.rank
    requires a.kind != Refresh ==> a.Bank() == b.Bank()
    ensures Retire(q, a) == Retire(q, b)
  {
    if q != [] {
      RetireSame(q[1..], a, b);
    }
  }

  // The banks of the rank before (j, k) have accepted the command, the others
  // are as they were.
  ghost predicate RankMoved(was: map<BankId, BankState>, now: map<BankId, BankState>, cmd: Command, j: int, k: int) {
    && now.Keys == was.Keys
    && forall id :: id in was ==>
         if id.rank == cmd.addr.rank && (id.bankgroup < j || (id.bankgroup == j && id.bank < k))
         then was[id].UpdateState(cmd).Some? && now[id] == was[id].UpdateState(cmd).value
         else now[id] == was[id]
  }

  lemma MoveOne(was: map<BankId, BankState>, now: map<BankId, BankState>, next: map<BankId, BankState>, b: BankState,
                cmd: Command, j: int, k: int)
    requires RankMoved(was, now, cmd, j, k)
    requires BankId(cmd.addr.rank, j, k) in now && now[BankId(cmd.addr.rank, j, k)].UpdateState(cmd) == Some(b)
    requires next == now[BankId(cmd.addr.rank, j, k) := b]
    ensures RankMoved(was, next, cmd, j, k + 1)
  {
    var at := BankId(cmd.addr.rank, j, k);
    assert was[at] == now[at];
    assert forall id :: id in was && id != at ==> next[id] == now[id];
  }

  lemma MoveOn(cfg: Config, was: map<BankId, BankState>, now: map<BankId, BankState>, cmd: Command, j: int)
    requires RankMoved(was, now, cmd, j, cfg.banksPerGroup)
    requires forall id :: id in was ==> cfg.ValidBank(id)
    ensures RankMoved(was, now, cmd, j + 1, 0)
  {
  }

  lemma MovedAll(cfg: Config, was: map<BankId, BankState>, now: map<BankId, BankState>, cmd: Command)
    requires RankMoved(was, now, cmd, cfg.bankgroups, 0) && cmd.IsRankCommand()
    requires forall id :: id in was ==> cfg.ValidBank(id)
    ensures forall ch: Channel :: ch.banks == was ==> StateAccepts(ch, cmd) && ChannelSpec.UpdateState(ch, cmd).banks == now
  {
  }

  lemma MoveBank(ch: Channel, cmd: Command)
    requires !cmd.IsRankCommand() && cmd.Bank() in ch.banks && ch.banks[cmd.Bank()].UpdateState(cmd).Some?
    ensures StateAccepts(ch, cmd)
    ensures ChannelSpec.UpdateState(ch, cmd).banks == ch.banks[cmd.Bank() := ch.banks[cmd.Bank()].UpdateState(cmd).value]
  {
  }

  // All banks of the rank before (j, k) are ready for the command.
  ghost predicate ReadyBefore(cfg: Config, ch: Channel, cmd: Command, clk: nat, j: int, k: int) {
    forall b, a :: 0 <= b < cfg.bankgroups && 0 <= a < cfg.banksPerGroup && (b < j || (b == j && a < k)) ==>
      ReplyOf(ch, BankId(cmd.addr.rank, b, a), cmd, clk).Ready?
  }

  lemma ScanStep(cfg: Config, ch: Channel, cmd: Command, clk: nat, j: nat, k: nat)
    requires j < cfg.bankgroups && k < cfg.banksPerGroup
    ensures var id := BankId(cmd.addr.rank, j, k);
            && FirstStop(cfg, ch, cmd, clk, j, k) ==
                 (if Stops(ch, id, cmd, clk) then Some(id) else FirstStop(cfg, ch, cmd, clk, j, k + 1))
            && (ReadyBefore(cfg, ch, cmd, clk, j, k + 1) <==>
                  ReadyBefore(cfg, ch, cmd, clk, j, k) && ReplyOf(ch, id, cmd, clk).Ready?)
  {
  }

  lemma RowEnds(cfg: Config, ch: Channel, cmd: Command, clk: nat, j: nat)
    requires j < cfg.bankgroups
    ensures FirstStop(cfg, ch, cmd, clk, j, cfg.banksPerGroup) == FirstStop(cfg, ch, cmd, clk, j + 1, 0)
    ensures ReadyBefore(cfg, ch, cmd, clk, j, cfg.banksPerGroup) <==> ReadyBefore(cfg, ch, cmd, clk, j + 1, 0)
  {
  }

  lemma ScanEnds(cfg: Config, ch: Channel, cmd: Command, clk: nat)
    ensures FirstStop(cfg, ch, cmd, clk, cfg.bankgroups, 0).None?
    ensures ReadyBefore(cfg, ch, cmd, clk, cfg.bankgroups, 0) <==> AllReady(cfg, ch, cmd, clk)
  {
  }

  class ChannelState {
    const cfg: Config
    var bankStates: map<BankId, BankState>
    var refreshQ: seq<Command>
    var rankIsSref: set<int>
    var fourAw: map<int, seq<nat>>
    var thirtyTwoAw: map<int, seq<nat>>

    ghost function View(): Channel
      reads this
    {
      Channel(bankStates, refreshQ, rankIsSref, fourAw, thirtyTwoAw)
    }

    ghost predicate AllBanks()
      reads this
    {
      forall id :: id in bankStates <==> cfg.ValidBank(id)
    }

    constructor (cfg: Config)
      ensures this.cfg == cfg && View() == Init(cfg).channel
    {
      this.cfg := cfg;
      bankStates := FreshBanks(cfg);
      refreshQ := [];
      rankIsSref := {};
      fourAw := NoWindows(cfg);
      thirtyTwoAw := NoWindows(cfg);
    }

    // ------------------------------------------------------------ timing

    // The inner loops: every entry of the list, for one bank.
    method UpdateBankTiming(id: BankId, list: seq<Entry>, clk: nat)
      requires id in bankStates
      modifies `bankStates
      ensures bankStates == old(bankStates)[id := Bumped(old(bankStates)[id], list, clk)]
    {
      ghost var was := bankStates[id];
      var b := bankStates[id];
      BumpNothing(b, clk);
      for n := 0 to |list|
        invariant bankStates == old(bankStates)
        invariant b == Bumped(was, list[..n], clk)
      {
        BumpOneMore(was.times, list, n, clk);
        b := b.UpdateTiming(list[n].0, AddCycles(clk, list[n].1));
      }
      assert list[..|list|] == list;
      bankStates := bankStates[id := b];
    }

    // The loop over the banks of one bankgroup; returns the banks it has updated.
    method UpdateBankgroupTiming(rank: int, bankgroup: int, skip: int, list: seq<Entry>, clk: nat) returns (ghost done: set<BankId>)
      requires AllBanks() && cfg.ValidRank(rank) && 0 <= bankgroup < cfg.bankgroups
      modifies `bankStates
      ensures AllBanks()
      ensures BanksBelow(old(bankStates), done, rank, bankgroup, skip, cfg.banksPerGroup)
      ensures Updated(old(bankStates), bankStates, done, list, clk)
    {
      ghost var was := bankStates;
      done := {};
      UpdatedNone(was, list, clk);
      for k := 0 to cfg.banksPerGroup
        invariant AllBanks()
        invariant BanksBelow(was, done, rank, bankgroup, skip, k)
        invariant Updated(was, bankStates, done, list, clk)
      {
        if k != skip {
          ghost var now := bankStates;
          var id := BankId(rank, bankgroup, k);
          assert cfg.ValidBank(id);
          BankFollows(was, done, rank, bankgroup, skip, k);
          UpdateBankTiming(id, list, clk);
          UpdatedBank(now, id, list, clk);
          UpdatedOnce(was, now, bankStates, done, {id}, list, clk);
          done := done + {id};
        } else {
          BankSkipped(was, done, rank, bankgroup, skip, k);
        }
      }
    }

    method UpdateSameBankTiming(addr: Address, list: seq<Entry>, clk: nat)
      requires AllBanks() && cfg.ValidBank(BankId(addr.rank, addr.bankgroup, addr.bank))
      modifies `bankStates
      ensures bankStates == BumpScope(old(bankStates), SameBank, addr, list, clk) && AllBanks()
    {
      ghost var was := bankStates;
      var id := BankId(addr.rank, addr.bankgroup, addr.bank);
      OneBankScope(was, id, list, clk, addr);
      SameKeysSameBanks(cfg, was, SameBank, addr, list, clk);
      UpdateBankTiming(id, list, clk);
    }

    method UpdateOtherBanksSameBankgroupTiming(addr: Address, list: seq<Entry>, clk: nat)
      requires AllBanks() && cfg.ValidBank(BankId(addr.rank, addr.bankgroup, addr.bank))
      modifies `bankStates
      ensures bankStates == BumpScope(old(bankStates), OtherBanks, addr, list, clk) && AllBanks()
    {
      ghost var was := bankStates;
      ghost var done := UpdateBankgroupTiming(addr.rank, addr.bankgroup, addr.bank, list, clk);
      GroupScope(cfg, was, bankStates, done, list, clk, addr);
    }

    // The loop over the bankgroups of one rank, leaving out bankgroup `skip`.
    method UpdateRankTiming(rank: int, skip: int, list: seq<Entry>, clk: nat) returns (ghost done: set<BankId>)
      requires AllBanks() && cfg.ValidRank(rank)
      modifies `bankStates
      ensures AllBanks()
      ensures GroupsBelow(old(bankStates), done, rank, skip, cfg.bankgroups)
      ensures Updated(old(bankStates), bankStates, done, list, clk)
    {
      ghost var was := bankStates;
      done := {};
      UpdatedNone(was, list, clk);
      for j := 0 to cfg.bankgroups
        invariant AllBanks()
        invariant GroupsBelow(was, done, rank, skip, j)
        invariant Updated(was, bankStates, done, list, clk)
      {
        if j != skip {
          ghost var now := bankStates;
          ghost var more := UpdateBankgroupTiming(rank, j, -1, list, clk);
          GroupFollows(cfg, was, done, rank, skip, j, more);
          UpdatedOnce(was, now, bankStates, done, more, list, clk);
          done := done + more;
        } else {
          GroupSkipped(was, done, rank, skip, j);
        }
      }
    }

    method UpdateOtherBankgroupsSameRankTiming(addr: Address, list: seq<Entry>, clk: nat)
      requires AllBanks() && cfg.ValidRank(addr.rank)
      modifies `bankStates
      ensures bankStates == BumpScope(old(bankStates), OtherBankgroups, addr, list, clk) && AllBanks()
    {
      ghost var was := bankStates;
      ghost var done := UpdateRankTiming(addr.rank, addr.bankgroup, list, clk);
      GroupsScope(cfg, was, bankStates, done, list, clk, addr);
    }

    // The loop over the ranks, leaving out rank `skip`.
    method UpdateRanksTiming(skip: int, list: seq<Entry>, clk: nat) returns (ghost done: set<BankId>)
      requires AllBanks()
      modifies `bankStates
      ensures AllBanks()
      ensures RanksBelow(old(bankStates), done, skip, cfg.ranks)
      ensures Updated(old(bankStates), bankStates, done, list, clk)
    {
      ghost var was := bankStates;
      done := {};
      UpdatedNone(was, list, clk);
      for i := 0 to cfg.ranks
        invariant AllBanks() && bankStates.Keys == was.Keys
        invariant RanksBelow(was, done, skip, i)
        invariant Updated(was, bankStates, done, list, clk)
      {
        if i != skip {
          ghost var now := bankStates;
          ghost var more := UpdateRankTiming(i, -1, list, clk);
          RankFollows(cfg, was, done, skip, i, more);
          UpdatedOnce(was, now, bankStates, done, more, list, clk);
          done := done + more;
        } else {
          RankSkipped(was, done, skip, i);
        }
      }
    }

    method UpdateOtherRanksTiming(addr: Address, list: seq<Entry>, clk: nat)
      requires AllBanks()
      modifies `bankStates
      ensures bankStates == BumpScope(old(bankStates), OtherRanks, addr, list, clk) && AllBanks()
    {
      ghost var was := bankStates;
      ghost var done := UpdateRanksTiming(addr.rank, list, clk);
      RanksScope(cfg, was, bankStates, done, list, clk, addr);
    }

    method UpdateSameRankTiming(addr: Address, list: seq<Entry>, clk: nat)
      requires AllBanks() && cfg.ValidRank(addr.rank)
      modifies `bankStates
      ensures bankStates == BumpScope(old(bankStates), SameRank, addr, list, clk) && AllBanks()
    {
      ghost var was := bankStates;
      ghost var done := UpdateRankTiming(addr.rank, -1, list, clk);
      RankScope(cfg, was, bankStates, done, list, clk, addr);
    }

    method UpdateActivationTimes(rank: int, clk: nat)
      modifies `fourAw, `thirtyTwoAw
      ensures fourAw == PushRank(old(fourAw), rank, cfg.tFAW, clk)
      ensures thirtyTwoAw == if cfg.gddr then PushRank(old(thirtyTwoAw), rank, cfg.t32AW, clk) else old(thirtyTwoAw)
    {
      var four := WindowOf(fourAw, rank);
      if four != [] && clk >= four[0] {
        four := four[1..];
      }
      fourAw := fourAw[rank := four + [clk + cfg.tFAW]];
      if cfg.gddr {
        var thirtyTwo := WindowOf(thirtyTwoAw, rank);
        if thirtyTwo != [] && clk >= thirtyTwo[0] {
          thirtyTwo := thirtyTwo[1..];
        }
        thirtyTwoAw := thirtyTwoAw[rank := thirtyTwo + [clk + cfg.t32AW]];
      }
    }

    method UpdateBankCommandTiming(cmd: Command, clk: nat)
      requires AllBanks() && !cmd.IsRankCommand() && cfg.ValidBank(cmd.Bank())
      modifies `bankStates
      ensures bankStates == BumpBanks(cfg.tables, old(bankStates), cmd, clk) && AllBanks()
    {
      ghost var was := bankStates;
      UpdateSameBankTiming(cmd.addr, ListOf(cfg.tables.sameBank, cmd.kind), clk);
      ghost var b1 := bankStates;
      UpdateOtherBanksSameBankgroupTiming(cmd.addr, ListOf(cfg.tables.otherBanks, cmd.kind), clk);
      ghost var b2 := bankStates;
      UpdateOtherBankgroupsSameRankTiming(cmd.addr, ListOf(cfg.tables.otherBankgroups, cmd.kind), clk);
      ghost var b3 := bankStates;
      UpdateOtherRanksTiming(cmd.addr, ListOf(cfg.tables.otherRanks, cmd.kind), clk);
      FirstScopes(cfg.tables, was, b1, b2, cmd, clk);
      LastScopes(cfg.tables, was, b2, b3, bankStates, cmd, clk);
      AllScopesDone(cfg.tables, was, bankStates, cmd, clk);
    }

    method UpdateTiming(cmd: Command, clk: nat)
      requires AllBanks()
      requires if cmd.IsRankCommand() then cfg.ValidRank(cmd.addr.rank) else cfg.ValidBank(cmd.Bank())
      modifies this
      ensures View() == ChannelSpec.UpdateTiming(cfg, old(View()), cmd, clk)
      ensures AllBanks()
    {
      ghost var was := bankStates;
      if cmd.kind == Activate {
        UpdateActivationTimes(cmd.addr.rank, clk);
      }
      if cmd.IsRankCommand() {
        UpdateSameRankTiming(cmd.addr, ListOf(cfg.tables.sameRank, cmd.kind), clk);
        RankScopeIsBump(cfg.tables, was, cmd, clk);
      } else {
        UpdateBankCommandTiming(cmd, clk);
      }
    }

    // ------------------------------------------------------------- state

    method RankNeedRefresh(rank: int, need: bool)
      modifies `refreshQ
      ensures refreshQ == if need then old(refreshQ) + [RankRequest(rank)] else Retire(old(refreshQ), RankRequest(rank))
    {
      if need {
        refreshQ := refreshQ + [RankRequest(rank)];
      } else {
        EraseRequest(RankRequest(rank));
      }
    }

    method BankNeedRefresh(rank: int, bankgroup: int, bank: int, need: bool)
      modifies `refreshQ
      ensures refreshQ ==
                if need then old(refreshQ) + [BankRequest(rank, bankgroup, bank)]
                else Retire(old(refreshQ), BankRequest(rank, bankgroup, bank))
    {
      if need {
        refreshQ := refreshQ + [BankRequest(rank, bankgroup, bank)];
      } else {
        EraseRequest(BankRequest(rank, bankgroup, bank));
      }
    }

    // The loop that erases the first request answered.
    method EraseRequest(done: Command)
      modifies `refreshQ
      ensures refreshQ == Retire(old(refreshQ), done)
    {
      var i := 0;
      while i < |refreshQ| && !Answers(done, refreshQ[i])
        invariant i <= |refreshQ| && refreshQ == old(refreshQ)
        invariant forall j :: 0 <= j < i ==> !Answers(done, refreshQ[j])
      {
        i := i + 1;
      }
      RetireAt(refreshQ, done, i);
      if i < |refreshQ| {
        refreshQ := refreshQ[..i] + refreshQ[i + 1..];
      }
    }

    // The loop over the banks of a rank; false is AbruptExit in one of them.
    method UpdateRankState(cmd: Command) returns (ok: bool)
      requires AllBanks() && cfg.ValidRank(cmd.addr.rank) && cmd.IsRankCommand()
      modifies `bankStates
      ensures ok == StateAccepts(old(View()), cmd)
      ensures ok ==> bankStates == ChannelSpec.UpdateState(old(View()), cmd).banks
    {
      ghost var was := bankStates;
      for j := 0 to cfg.bankgroups
        invariant RankMoved(was, bankStates, cmd, j, 0)
      {
        for k := 0 to cfg.banksPerGroup
          invariant RankMoved(was, bankStates, cmd, j, k)
        {
          var id := BankId(cmd.addr.rank, j, k);
          assert cfg.ValidBank(id);
          match bankStates[id].UpdateState(cmd) {
            case None =>
              return false;
            case Some(b) =>
              ghost var now := bankStates;
              bankStates := bankStates[id := b];
              MoveOne(was, now, bankStates, b, cmd, j, k);
          }
        }
        MoveOn(cfg, was, bankStates, cmd, j);
      }
      ok := true;
      MovedAll(cfg, was, bankStates, cmd);
    }

    method UpdateState(cmd: Command) returns (ok: bool)
      requires AllBanks()
      requires if cmd.IsRankCommand() then cfg.ValidRank(cmd.addr.rank) else cfg.ValidBank(cmd.Bank())
      modifies this
      ensures ok == StateAccepts(old(View()), cmd)
      ensures ok ==> View() == ChannelSpec.UpdateState(old(View()), cmd) && AllBanks()
    {
      if cmd.IsRankCommand() {
        ok := UpdateRankState(cmd);
        if ok {
          if cmd.IsRefresh() {
            RetireSame(refreshQ, cmd, RankRequest(cmd.addr.rank));
            RankNeedRefresh(cmd.addr.rank, false);
          } else if cmd.kind == SrefEnter {
            rankIsSref := rankIsSref + {cmd.addr.rank};
          } else if cmd.kind == SrefExit {
            rankIsSref := rankIsSref - {cmd.addr.rank};
          }
        }
      } else {
        match bankStates[cmd.Bank()].UpdateState(cmd) {
          case None =>
            assert !StateAccepts(View(), cmd) by {
              assert Reaches(cmd, cmd.Bank());
            }
            return false;
          case Some(b) =>
            ghost var was := View();
            MoveBank(was, cmd);
            bankStates := bankStates[cmd.Bank() := b];
            ok := true;
            if cmd.IsRefresh() {
              RetireSame(refreshQ, cmd, BankRequest(cmd.addr.rank, cmd.addr.bankgroup, cmd.addr.bank));
              BankNeedRefresh(cmd.addr.rank, cmd.addr.bankgroup, cmd.addr.bank, false);
            }
        }
      }
    }

    method UpdateTimingAndStates(cmd: Command, clk: nat) returns (ok: bool)
      requires AllBanks()
      requires if cmd.IsRankCommand() then cfg.ValidRank(cmd.addr.rank) else cfg.ValidBank(cmd.Bank())
      modifies this
      ensures ok == StateAccepts(old(View()), cmd)
      ensures ok ==> View() == Apply(cfg, old(View()), cmd, clk) && AllBanks()
    {
      ok := UpdateState(cmd);
      if ok {
        UpdateTiming(cmd, clk);
      }
    }

    // ------------------------------------------------------------ queries

    function IsRowOpen(id: BankId): bool
      requires id in bankStates
      reads this
    {
      bankStates[id].status == Open
    }

    // The scan of a rank: the first bank that wants another command ends it;
    // otherwise the command goes out if all banks have been counted ready.
    method GetRankReady(cmd: Command, clk: nat) returns (r: Reply)
      requires AllBanks() && cmd.IsRankCommand() && cfg.ValidRank(cmd.addr.rank)
      ensures r == GetReady(cfg, View(), cmd, clk)
    {
      ghost var ch := View();
      var numReady := 0;
      r := NotReady;
      for j := 0 to cfg.bankgroups
        invariant FirstStop(cfg, ch, cmd, clk, 0, 0) == FirstStop(cfg, ch, cmd, clk, j, 0)
        invariant numReady <= j * cfg.banksPerGroup
        invariant numReady == j * cfg.banksPerGroup <==> ReadyBefore(cfg, ch, cmd, clk, j, 0)
        invariant numReady == j * cfg.banksPerGroup > 0 ==> r == Ready(cmd)
      {
        ghost var before := numReady;
        ghost var full := j * cfg.banksPerGroup;
        for k := 0 to cfg.banksPerGroup
          invariant FirstStop(cfg, ch, cmd, clk, 0, 0) == FirstStop(cfg, ch, cmd, clk, j, k)
          invariant numReady <= full + k
          invariant numReady == full + k <==> ReadyBefore(cfg, ch, cmd, clk, j, k)
          invariant numReady == full + k > 0 ==> r == Ready(cmd)
        {
          var id := BankId(cmd.addr.rank, j, k);
          assert cfg.ValidBank(id);
          r := bankStates[id].GetReadyCommand(cmd, clk);
          ScanStep(cfg, ch, cmd, clk, j, k);
          match r {
            case Abort =>
              return;
            case NotReady =>
            case Ready(c) =>
              if c.kind != cmd.kind {
                return Ready(Command(c.kind, Address(-1, cmd.addr.rank, j, k, -1, -1), c.hexAddr));
              }
              numReady := numReady + 1;
          }
        }
        RowEnds(cfg, ch, cmd, clk, j);
        assert (j + 1) * cfg.banksPerGroup == full + cfg.banksPerGroup;
      }
      ScanEnds(cfg, ch, cmd, clk);
      var numBanks := cfg.bankgroups * cfg.banksPerGroup;
      if numReady != numBanks {
        r := NotReady;
      } else if numBanks == 0 {
        assert cfg.bankgroups == 0 || cfg.banksPerGroup == 0;
        r := NotReady;
      }
    }

    method GetReadyCommand(cmd: Command, clk: nat) returns (r: Reply)
      requires AllBanks()
      requires if cmd.IsRankCommand() then cfg.ValidRank(cmd.addr.rank) else cfg.ValidBank(cmd.Bank())
      ensures r == GetReady(cfg, View(), cmd, clk)
    {
      if cmd.IsRankCommand() {
        r := GetRankReady(cmd, clk);
      } else {
        r := bankStates[cmd.Bank()].GetReadyCommand(cmd, clk);
        if r.Ready? && r.cmd.kind == Activate && !IsActivationWindowOk(cmd.addr.rank, clk) {
          r := NotReady;
        }
      }
    }

    predicate IsActivationWindowOk(rank: int, clk: nat)
      reads this
    {
      var fawOk := WindowReady(WindowOf(fourAw, rank), FourWindow, clk);
      if cfg.gddr then
        if !fawOk then false else WindowReady(WindowOf(thirtyTwoAw, rank), ThirtyTwoWindow, clk)
      else fawOk
    }
  }
}
