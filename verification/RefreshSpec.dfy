// When refresh requests are made and for whom (dramsim3/src/refresh.cc).
module RefreshSpec {
  import opened Basics
  import opened DramTypes
  import opened ChannelSpec

  // clk_, next_rank_, next_bg_ and next_bank_.
  datatype Generator = Generator(clk: nat, rank: nat, bankgroup: nat, bank: nat)

  function RankRequest(rank: int): Command {
    Command(Refresh, Address(-1, rank, -1, -1, -1, -1), -1)
  }

  function BankRequest(rank: int, bankgroup: int, bank: int): Command {
    Command(RefreshBank, Address(-1, rank, bankgroup, bank, -1, -1), -1)
  }

  // The first rank from i on that is not in self-refresh.
  function FirstAwake(ranks: nat, asleep: set<int>, i: nat): Option<nat>
    decreases ranks - i
  {
    if i >= ranks then None else if i !in asleep then Some(i) else FirstAwake(ranks, asleep, i + 1)
  }

  // InsertRefresh: the requests it appends.
  function Requests(cfg: Config, g: Generator, asleep: set<int>): seq<Command> {
    match cfg.policy
    case RankSimultaneous =>
      // the loop over the ranks stops after the first request
      (match FirstAwake(cfg.ranks, asleep, 0)
       case Some(rank) => [RankRequest(rank)]
       case None => [])
    case RankStaggered => if g.rank in asleep then [] else [RankRequest(g.rank)]
    case BankStaggered => if g.rank in asleep then [] else [BankRequest(g.rank, g.bankgroup, g.bank)]
  }

  function Wrap(i: nat, n: nat): nat { if n == 0 then 0 else (i + 1) % n }

  // IterateNext: bankgroups run fastest, then banks, then ranks.
  function Advance(cfg: Config, g: Generator): Generator {
    match cfg.policy
    case RankSimultaneous => g
    case RankStaggered => g.(rank := Wrap(g.rank, cfg.ranks))
    case BankStaggered =>
      var bg := Wrap(g.bankgroup, cfg.bankgroups);
      var bank := if bg == 0 then Wrap(g.bank, cfg.banksPerGroup) else g.bank;
      var rank := if bg == 0 && bank == 0 then Wrap(g.rank, cfg.ranks) else g.rank;
      g.(bankgroup := bg, bank := bank, rank := rank)
  }

  predicate Due(cfg: Config, g: Generator) {
    cfg.refreshInterval > 0 && g.clk % cfg.refreshInterval == 0 && g.clk > 0
  }

  // Refresh::ClockTick.
  function TickGenerator(cfg: Config, g: Generator): Generator {
    var g1 := if Due(cfg, g) then Advance(cfg, g) else g;
    g1.(clk := g.clk + 1)
  }

  function TickRequests(cfg: Config, g: Generator, ch: Channel): Channel {
    if Due(cfg, g) then ch.(refreshQ := ch.refreshQ + Requests(cfg, g, ch.selfRefreshing)) else ch
  }
}
