// Which rank or bank each periodic refresh request is for, and when it is made
// (dramsim3/src/refresh.cc), in closed form.
module RefreshRotation {
  import opened Basics
  import opened DramTypes
  import opened RefreshSpec

  // ------------------------------------------------------- mixed-radix counting

  lemma Digits(n: nat, low: int, high: int)
    requires 0 <= low < n
    ensures (low + n * high) / n == high && (low + n * high) % n == low
  {
    assert n * high == high * n;
    Quotient(low + n * high, n, high, low);
  }

  lemma DigitOf(k: nat, n: nat)
    requires 0 < n
    ensures k == k % n + n * (k / n) && 0 <= k % n < n
  {
  }

  lemma WrapIs(i: nat, n: nat)
    requires 0 < n
    ensures Wrap(i, n) == (i + 1) % n
  {
  }

  lemma NextDigit(m: nat, n: nat)
    requires 0 < n
    ensures (m + 1) % n == Wrap(m % n, n)
    ensures (m + 1) / n == m / n + if (m + 1) % n == 0 then 1 else 0
  {
    hide *;
    var q, r := m / n, m % n;
    DigitOf(m, n);
    WrapIs(r, n);
    if r + 1 < n {
      Digits(n, r + 1, q);
      Digits(n, r + 1, 0);
    } else {
      Spread(n, q, 1);
      Digits(n, 0, q + 1);
      Digits(n, 0, 1);
    }
  }

  // ----------------------------------------------------------- the generator's run

  function After(cfg: Config, n: nat): Generator {
    if n == 0 then Generator(0, 0, 0, 0) else TickGenerator(cfg, After(cfg, n - 1))
  }

  // The requests of the first n cycles, no rank being in self-refresh.
  function Asked(cfg: Config, n: nat): seq<Command> {
    if n == 0 then []
    else Asked(cfg, n - 1) + (if Due(cfg, After(cfg, n - 1)) then Requests(cfg, After(cfg, n - 1), {}) else [])
  }

  // The k-th request of a policy.
  function InTurn(cfg: Config, k: nat): Command
    requires 0 < cfg.ranks && 0 < cfg.bankgroups && 0 < cfg.banksPerGroup
  {
    match cfg.policy
    case RankSimultaneous => RankRequest(0)
    case RankStaggered => RankRequest(k % cfg.ranks)
    case BankStaggered =>
      var g := k / cfg.bankgroups;
      BankRequest(g / cfg.banksPerGroup % cfg.ranks, k % cfg.bankgroups, g % cfg.banksPerGroup)
  }

  predicate AtTurn(cfg: Config, g: Generator, k: nat)
    requires 0 < cfg.ranks && 0 < cfg.bankgroups && 0 < cfg.banksPerGroup
  {
    match cfg.policy
    case RankSimultaneous => true
    case RankStaggered => g.rank == k % cfg.ranks
    case BankStaggered =>
      var m := k / cfg.bankgroups;
      g.rank == m / cfg.banksPerGroup % cfg.ranks && g.bankgroup == k % cfg.bankgroups && g.bank == m % cfg.banksPerGroup
  }

  lemma AdvanceTurn(cfg: Config, g: Generator, k: nat)
    requires 0 < cfg.ranks && 0 < cfg.bankgroups && 0 < cfg.banksPerGroup
    requires AtTurn(cfg, g, k)
    ensures AtTurn(cfg, Advance(cfg, g), k + 1)
  {
    match cfg.policy
    case RankSimultaneous =>
    case RankStaggered => NextDigit(k, cfg.ranks);
    case BankStaggered =>
      var m := k / cfg.bankgroups;
      NextDigit(k, cfg.bankgroups);
      NextDigit(m, cfg.banksPerGroup);
      NextDigit(m / cfg.banksPerGroup, cfg.ranks);
  }

  lemma RequestAtTurn(cfg: Config, g: Generator, k: nat)
    requires 0 < cfg.ranks && 0 < cfg.bankgroups && 0 < cfg.banksPerGroup
    requires AtTurn(cfg, g, k)
    ensures Requests(cfg, g, {}) == [InTurn(cfg, k)]
  {
  }

  lemma {:induction false} RunAtTurn(cfg: Config, n: nat)
    requires 0 < cfg.ranks && 0 < cfg.bankgroups && 0 < cfg.banksPerGroup && 0 < cfg.refreshInterval
    ensures After(cfg, n).clk == n
    ensures |Asked(cfg, n)| == if n == 0 then 0 else (n - 1) / cfg.refreshInterval
    ensures AtTurn(cfg, After(cfg, n), |Asked(cfg, n)|)
    ensures forall k :: 0 <= k < |Asked(cfg, n)| ==> Asked(cfg, n)[k] == InTurn(cfg, k)
  {
    if n > 0 {
      RunAtTurn(cfg, n - 1);
      var k := |Asked(cfg, n - 1)|;
      AdvanceTurn(cfg, After(cfg, n - 1), k);
      RequestAtTurn(cfg, After(cfg, n - 1), k);
      if n > 1 {
        NextDigit(n - 2, cfg.refreshInterval);
      } else {
        Quotient(0, cfg.refreshInterval, 0, 0);
      }
    } else {
      Quotient(0, cfg.ranks, 0, 0);
      Quotient(0, cfg.bankgroups, 0, 0);
      Quotient(0, cfg.banksPerGroup, 0, 0);
    }
  }

  // --------------------------------------------------------- every bank in its turn

  function RoundLength(cfg: Config): nat { cfg.bankgroups * (cfg.banksPerGroup * cfg.ranks) }

  function PlaceOf(cfg: Config, id: BankId): int {
    id.bankgroup + cfg.bankgroups * (id.bank + cfg.banksPerGroup * id.rank)
  }

  lemma PlaceInRound(cfg: Config, id: BankId)
    requires cfg.ValidBank(id)
    ensures 0 <= PlaceOf(cfg, id) < RoundLength(cfg)
  {
    InBox(cfg.banksPerGroup, id.bank, cfg.ranks, id.rank);
    InBox(cfg.bankgroups, id.bankgroup, cfg.banksPerGroup * cfg.ranks, id.bank + cfg.banksPerGroup * id.rank);
  }

  lemma PlaceUnique(cfg: Config, a: BankId, b: BankId)
    requires cfg.ValidBank(a) && cfg.ValidBank(b) && PlaceOf(cfg, a) == PlaceOf(cfg, b)
    ensures a == b
  {
    Digits(cfg.bankgroups, a.bankgroup, a.bank + cfg.banksPerGroup * a.rank);
    Digits(cfg.bankgroups, b.bankgroup, b.bank + cfg.banksPerGroup * b.rank);
    Digits(cfg.banksPerGroup, a.bank, a.rank);
    Digits(cfg.banksPerGroup, b.bank, b.rank);
  }

  lemma ThreeDigits(b: nat, n: nat, r: nat, x: int, y: int, z: int, rounds: int)
    ensures x + b * (y + n * (z + r * rounds)) == rounds * (b * (n * r)) + (x + b * (y + n * z))
  {
    assert n * (z + r * rounds) == n * z + n * (r * rounds);
    assert n * (r * rounds) == n * r * rounds;
    assert b * (y + n * z + n * r * rounds) == b * (y + n * z) + b * (n * r * rounds);
    assert b * (n * r * rounds) == b * (n * r) * rounds;
  }

  lemma TurnBank(cfg: Config, k: nat)
    requires 0 < cfg.ranks && 0 < cfg.bankgroups && 0 < cfg.banksPerGroup && cfg.policy == BankStaggered
    ensures var m := k / cfg.bankgroups;
            InTurn(cfg, k).Bank() == BankId(m / cfg.banksPerGroup % cfg.ranks, k % cfg.bankgroups, m % cfg.banksPerGroup)
  {
  }

  lemma PlaceIs(cfg: Config, id: BankId)
    ensures PlaceOf(cfg, id) == id.bankgroup + cfg.bankgroups * (id.bank + cfg.banksPerGroup * id.rank)
    ensures RoundLength(cfg) == cfg.bankgroups * (cfg.banksPerGroup * cfg.ranks)
    ensures 0 <= id.rank < cfg.ranks && 0 <= id.bankgroup < cfg.bankgroups && 0 <= id.bank < cfg.banksPerGroup <==> cfg.ValidBank(id)
  {
  }

  lemma PlaceAtTurn(cfg: Config, k: nat)
    requires 0 < cfg.ranks && 0 < cfg.bankgroups && 0 < cfg.banksPerGroup && cfg.policy == BankStaggered
    ensures cfg.ValidBank(InTurn(cfg, k).Bank())
    ensures k % RoundLength(cfg) == PlaceOf(cfg, InTurn(cfg, k).Bank())
  {
    hide *;
    var b, n, r := cfg.bankgroups, cfg.banksPerGroup, cfg.ranks;
    var m := k / b;
    var x, y, z, rounds := k % b, m % n, m / n % r, m / n / r;
    TurnBank(cfg, k);
    DigitOf(k, b);
    DigitOf(m, n);
    DigitOf(m / n, r);
    PlaceIs(cfg, BankId(z, x, y));
    PlaceInRound(cfg, BankId(z, x, y));
    ThreeDigits(b, n, r, x, y, z, rounds);
    Quotient(k, RoundLength(cfg), rounds, PlaceOf(cfg, BankId(z, x, y)));
  }

  // Per-bank refresh: in every round each bank is asked for exactly once, in the
  // order bankgroup, bank, rank.
  lemma EachBankOncePerRound(cfg: Config, k: nat, id: BankId)
    requires 0 < cfg.ranks && 0 < cfg.bankgroups && 0 < cfg.banksPerGroup && cfg.policy == BankStaggered
    requires cfg.ValidBank(id)
    ensures InTurn(cfg, k).Bank() == id <==> k % RoundLength(cfg) == PlaceOf(cfg, id)
    ensures 0 <= PlaceOf(cfg, id) < RoundLength(cfg)
  {
    PlaceInRound(cfg, id);
    PlaceAtTurn(cfg, k);
    if k % RoundLength(cfg) == PlaceOf(cfg, id) {
      PlaceUnique(cfg, InTurn(cfg, k).Bank(), id);
    }
  }

  // Under the simultaneous policy, which is to refresh all ranks, the loop over
  // the ranks leaves after the first one: every other rank is never asked for.
  lemma SimultaneousStarves(cfg: Config, n: nat, rank: int)
    requires 0 < cfg.ranks && 0 < cfg.bankgroups && 0 < cfg.banksPerGroup && 0 < cfg.refreshInterval
    requires cfg.policy == RankSimultaneous && |Asked(cfg, n)| > 0
    ensures (exists k :: 0 <= k < |Asked(cfg, n)| && Asked(cfg, n)[k].addr.rank == rank) <==> rank == 0
  {
    RunAtTurn(cfg, n);
    assert Asked(cfg, n)[0] == InTurn(cfg, 0);
  }
}
