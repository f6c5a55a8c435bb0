// A rank refresh that has reached the head of the queue is issued within a
// bound, and until then its rank only closes banks.
module RefreshBound {
  import opened Basics
  import opened DramTypes
  import opened Banks
  import opened ChannelSpec
  import opened CommandHistory
  import opened QueueSpec
  import opened RefreshSpec
  import opened ControllerSpec
  import opened QueueSafety
  import opened ControllerSafety
  import opened Census
  import opened Servicing
  import opened PlainMemory
  import opened ControllerRuns

  // ------------------------------------------------------- what the tables give

  predicate NoEntry(list: seq<Entry>, kind: CmdKind) {
    forall n :: 0 <= n < |list| ==> list[n].0 != kind
  }

  predicate GapsWithin(list: seq<Entry>, kind: CmdKind, gap: nat) {
    forall n :: 0 <= n < |list| && list[n].0 == kind ==> 0 <= list[n].1 <= gap
  }

  // Commands to other ranks leave the precharge and refresh times of a rank
  // alone; a precharge delays the other precharges of its rank by at most
  // `step` cycles and a refresh by at most `rp`.
  ghost predicate RefreshTables(cfg: Config, step: nat, rp: nat) {
    && 1 <= step && 1 <= rp
    && (forall kind {:trigger ListOf(cfg.tables.otherRanks, kind)} ::
          NoEntry(ListOf(cfg.tables.otherRanks, kind), Precharge) && NoEntry(ListOf(cfg.tables.otherRanks, kind), Refresh))
    && GapsWithin(ListOf(cfg.tables.sameBank, Precharge), Refresh, rp)
    && GapsWithin(ListOf(cfg.tables.otherBanks, Precharge), Refresh, rp)
    && GapsWithin(ListOf(cfg.tables.otherBankgroups, Precharge), Refresh, rp)
    && GapsWithin(ListOf(cfg.tables.otherBanks, Precharge), Precharge, step)
    && GapsWithin(ListOf(cfg.tables.otherBankgroups, Precharge), Precharge, step)
  }

  lemma {:induction false} StampNone(list: seq<Entry>, kind: CmdKind, clk: nat)
    requires NoEntry(list, kind)
    ensures Stamp(list, kind, clk) == 0
  {
    if list != [] {
      StampNone(list[..|list| - 1], kind, clk);
    }
  }

  lemma {:induction false} StampWithin(list: seq<Entry>, kind: CmdKind, gap: nat, clk: nat)
    requires GapsWithin(list, kind, gap)
    ensures Stamp(list, kind, clk) <= clk + gap
  {
    if list != [] {
      StampWithin(list[..|list| - 1], kind, gap, clk);
      assert list[|list| - 1].0 == kind ==> 0 <= list[|list| - 1].1 <= gap;
    }
  }

  // ------------------------------------------------------------- one rank

  ghost function OpenBanks(ch: Channel, rank: int): set<BankId> {
    set id | id in ch.banks && id.rank == rank && ch.banks[id].status == Open
  }

  // Every open bank may be precharged from `pre` on, every bank refreshed from `ref` on.
  ghost predicate Within(ch: Channel, rank: int, pre: nat, ref: nat) {
    forall id :: id in ch.banks && id.rank == rank ==>
      (ch.banks[id].status == Open ==> ch.banks[id].times[Precharge] <= pre)
      && ch.banks[id].times[Refresh] <= ref
  }

  predicate SameView(b: BankState, b': BankState) {
    b'.status == b.status && b'.times[Precharge] == b.times[Precharge] && b'.times[Refresh] == b.times[Refresh]
  }

  lemma OtherRankBank(cfg: Config, b: BankState, c: Command, clk: nat, id: BankId, step: nat, rp: nat)
    requires RefreshTables(cfg, step, rp) && id.rank != c.addr.rank
    ensures SameView(b, ApplyToBank(cfg.tables, b, c, clk, id))
  {
    var list := ListFor(cfg.tables, c, id);
    assert NoEntry(list, Precharge) && NoEntry(list, Refresh) by {
      assert list == [] || list == ListOf(cfg.tables.otherRanks, c.kind);
    }
    StampNone(list, Precharge, clk);
    StampNone(list, Refresh, clk);
  }

  lemma SameRankView(ch: Channel, ch': Channel, rank: int, pre: nat, ref: nat)
    requires ch'.banks.Keys == ch.banks.Keys && Within(ch, rank, pre, ref)
    requires forall id :: id in ch.banks && id.rank == rank ==> SameView(ch.banks[id], ch'.banks[id])
    ensures OpenBanks(ch', rank) == OpenBanks(ch, rank) && Within(ch', rank, pre, ref)
  {
  }

  lemma OtherRank(cfg: Config, ch: Channel, c: Command, clk: nat, rank: int, pre: nat, ref: nat, step: nat, rp: nat)
    requires RefreshTables(cfg, step, rp) && StateAccepts(ch, c) && c.addr.rank != rank
    requires Within(ch, rank, pre, ref)
    ensures var ch' := Apply(cfg, ch, c, clk);
            OpenBanks(ch', rank) == OpenBanks(ch, rank) && Within(ch', rank, pre, ref)
  {
    ApplyKeys(cfg, ch, c, clk);
    var ch' := Apply(cfg, ch, c, clk);
    forall id | id in ch.banks && id.rank == rank
      ensures SameView(ch.banks[id], ch'.banks[id])
    {
      ApplyAt(cfg, ch, c, clk, id);
      OtherRankBank(cfg, ch.banks[id], c, clk, id, step, rp);
    }
    SameRankView(ch, ch', rank, pre, ref);
  }

  predicate AfterPrecharge(b: BankState, b': BankState, hit: bool, clk: nat, step: nat, rp: nat) {
    && b'.status == (if hit then Closed else b.status)
    && (!hit ==> b'.times[Precharge] <= Max(b.times[Precharge], clk + step))
    && b'.times[Refresh] <= Max(b.times[Refresh], clk + rp)
  }

  lemma PrechargeList(cfg: Config, c: Command, id: BankId, step: nat, rp: nat)
    requires RefreshTables(cfg, step, rp) && c.kind == Precharge && id.rank == c.addr.rank
    ensures GapsWithin(ListFor(cfg.tables, c, id), Refresh, rp)
    ensures id != c.Bank() ==> GapsWithin(ListFor(cfg.tables, c, id), Precharge, step)
  {
  }

  lemma PrechargeBank(cfg: Config, b: BankState, c: Command, clk: nat, id: BankId, step: nat, rp: nat)
    requires RefreshTables(cfg, step, rp) && c.kind == Precharge && id.rank == c.addr.rank
    requires id == c.Bank() ==> b.status == Open
    ensures AfterPrecharge(b, ApplyToBank(cfg.tables, b, c, clk, id), id == c.Bank(), clk, step, rp)
  {
    var list := ListFor(cfg.tables, c, id);
    PrechargeList(cfg, c, id, step, rp);
    StampWithin(list, Refresh, rp, clk);
    if id != c.Bank() {
      StampWithin(list, Precharge, step, clk);
    }
  }

  lemma RankAfterPrecharge(ch: Channel, ch': Channel, hit: BankId, clk: nat, pre: nat, ref: nat, step: nat, rp: nat,
                           pre': nat, ref': nat)
    requires pre' == Max(pre, clk + step) && ref' == Max(ref, clk + rp)
    requires ch'.banks.Keys == ch.banks.Keys && Within(ch, hit.rank, pre, ref)
    requires forall id :: id in ch.banks && id.rank == hit.rank ==>
               AfterPrecharge(ch.banks[id], ch'.banks[id], id == hit, clk, step, rp)
    ensures OpenBanks(ch', hit.rank) == OpenBanks(ch, hit.rank) - {hit}
    ensures Within(ch', hit.rank, pre', ref')
  {
  }

  lemma PrechargeInRank(cfg: Config, ch: Channel, ch': Channel, c: Command, clk: nat, pre: nat, ref: nat, step: nat, rp: nat,
                        pre': nat, ref': nat)
    requires StateAccepts(ch, c) && ch' == Apply(cfg, ch, c, clk)
    requires c.kind == Precharge && RefreshTables(cfg, step, rp)
    requires c.Bank() in ch.banks && ch.banks[c.Bank()].status == Open
    requires Within(ch, c.addr.rank, pre, ref)
    requires pre' == Max(pre, clk + step) && ref' == Max(ref, clk + rp)
    ensures OpenBanks(ch', c.addr.rank) == OpenBanks(ch, c.addr.rank) - {c.Bank()}
    ensures Within(ch', c.addr.rank, pre', ref')
  {
    ApplyKeys(cfg, ch, c, clk);
    forall id | id in ch.banks && id.rank == c.addr.rank
      ensures AfterPrecharge(ch.banks[id], ch'.banks[id], id == c.Bank(), clk, step, rp)
    {
      ApplyAt(cfg, ch, c, clk, id);
      PrechargeBank(cfg, ch.banks[id], c, clk, id, step, rp);
    }
    RankAfterPrecharge(ch, ch', c.Bank(), clk, pre, ref, step, rp, pre', ref');
  }

  // What the oldest request is told: precharge an open bank; wait, because no
  // open bank or some refresh time is not yet due; or refresh an idle rank.
  predicate Waits(ch: Channel, open: set<BankId>, rank: int, clk: nat) {
    || (open != {} && forall id :: id in open && id in ch.banks ==> ch.banks[id].times[Precharge] > clk)
    || (open == {} && exists id :: id in ch.banks && id.rank == rank && ch.banks[id].times[Refresh] > clk)
  }

  lemma NotAllReady(cfg: Config, ch: Channel, ref: Command, clk: nat) returns (id: BankId)
    requires ChannelOk(cfg, ch) && ref.kind == Refresh && cfg.ValidRank(ref.addr.rank)
    requires !AllReady(cfg, ch, ref, clk)
    ensures id in ch.banks && id.rank == ref.addr.rank
    ensures id in OpenBanks(ch, ref.addr.rank) || ch.banks[id].times[Refresh] > clk
  {
    var j, k :| 0 <= j < cfg.bankgroups && 0 <= k < cfg.banksPerGroup
                && !ReplyOf(ch, BankId(ref.addr.rank, j, k), ref, clk).Ready?;
    id := BankId(ref.addr.rank, j, k);
    assert cfg.ValidBank(id);
  }

  lemma NoStopMeans(cfg: Config, ch: Channel, ref: Command, clk: nat)
    requires ChannelOk(cfg, ch) && ref.kind == Refresh && cfg.ValidRank(ref.addr.rank)
    requires 0 < cfg.bankgroups && 0 < cfg.banksPerGroup
    requires FirstStop(cfg, ch, ref, clk, 0, 0).None?
    ensures if AllReady(cfg, ch, ref, clk) then OpenBanks(ch, ref.addr.rank) == {}
            else Waits(ch, OpenBanks(ch, ref.addr.rank), ref.addr.rank, clk)
  {
    FirstStopMeaning(cfg, ch, ref, clk, 0, 0);
    var open := OpenBanks(ch, ref.addr.rank);
    forall id | id in open
      ensures ch.banks[id].times[Precharge] > clk
      ensures !ReplyOf(ch, BankId(ref.addr.rank, id.bankgroup, id.bank), ref, clk).Ready?
    {
      assert id == BankId(ref.addr.rank, id.bankgroup, id.bank);
      assert !Stops(ch, id, ref, clk);
    }
    if !AllReady(cfg, ch, ref, clk) {
      var id := NotAllReady(cfg, ch, ref, clk);
    }
  }

  lemma RankReplyCases(cfg: Config, ch: Channel, ref: Command, clk: nat)
    requires ChannelOk(cfg, ch) && ref.kind == Refresh && cfg.ValidRank(ref.addr.rank)
    requires 0 < cfg.bankgroups && 0 < cfg.banksPerGroup
    ensures var r := GetReady(cfg, ch, ref, clk);
            var open := OpenBanks(ch, ref.addr.rank);
            match r
            case Abort => false
            case NotReady => Waits(ch, open, ref.addr.rank, clk)
            case Ready(c) => (c.kind == Precharge && c.Bank() in open && c.addr.rank == ref.addr.rank)
                             || (c == ref && open == {})
  {
    RankReplyMeaning(cfg, ch, ref, clk);
    FirstStopMeaning(cfg, ch, ref, clk, 0, 0);
    var stop := FirstStop(cfg, ch, ref, clk, 0, 0);
    if stop.Some? {
      assert cfg.ValidBank(stop.value);
    } else {
      NoStopMeans(cfg, ch, ref, clk);
    }
  }

  // ------------------------------------------------------------- the fence

  lemma ScaleUpTo(a: int, b: int, n: nat)
    requires a < b
    ensures a * n <= b * n - n
  {
    assert (b - 1) * n == b * n - n;
    ScaleMonotone(a, b - 1, n);
  }

  lemma ScaleMonotone(a: int, b: int, n: nat)
    requires a <= b
    ensures a * n <= b * n
  {
  }

  lemma LaneRank(cfg: Config, id: BankId)
    requires cfg.perBank && cfg.ValidBank(id)
    ensures var banks := cfg.bankgroups * cfg.banksPerGroup;
            0 < banks && LaneOf(cfg, id) / banks == id.rank && 0 <= LaneOf(cfg, id) < NumLanes(cfg)
  {
    var g, n, banks := cfg.bankgroups, cfg.banksPerGroup, cfg.bankgroups * cfg.banksPerGroup;
    var offset := id.bankgroup * n + id.bank;
    ScaleUpTo(id.bankgroup, g, n);
    ScaleMonotone(0, id.bankgroup, n);
    ScaleUpTo(id.rank, cfg.ranks, banks);
    ScaleMonotone(0, id.rank, banks);
    LaneInRange(id.rank, banks, offset, cfg.ranks);
  }

  lemma LaneInRange(rank: int, banks: nat, offset: int, ranks: int)
    requires 0 <= offset < banks && 0 <= rank * banks <= ranks * banks - banks
    ensures (rank * banks + offset) / banks == rank && 0 <= rank * banks + offset < banks * ranks
  {
    Quotient(rank * banks + offset, banks, rank, offset);
  }

  // The fenced lanes are exactly those of the refreshing rank.
  lemma FenceCoversRank(cfg: Config, ref: Command, c: Command, l: int)
    requires ref.kind == Refresh && cfg.ValidBank(c.Bank()) && LaneOf(cfg, c.Bank()) == l
    ensures l in RefLanes(cfg, ref) <==> c.addr.rank == ref.addr.rank
  {
    if cfg.perBank {
      LaneRank(cfg, c.Bank());
    }
  }

  // While the fence is up, what the queues yield goes to other ranks.
  lemma FetchedElsewhere(cfg: Config, s: Ctrl, q: Queues, c: Command, l: nat, i: nat)
    requires ConfigOk(cfg) && Safe(cfg, s) && s.queues.inRef && s.channel.refreshQ[0].kind == Refresh
    requires ChosenFrom(cfg, s.channel, s.queues, q, c, l, i)
    ensures c.addr.rank != s.channel.refreshQ[0].addr.rank
  {
    assert LaneOk(cfg, s.queues.lanes[l], l);
    assert Placed(cfg, s.queues.lanes[l][i], l);
    FenceCoversRank(cfg, s.channel.refreshQ[0], s.queues.lanes[l][i], l);
  }

  // --------------------------------------------------------- one clock cycle

  // The oldest request is a refresh of a rank with n open banks, whose banks
  // meet the given bounds.
  ghost predicate Converging(ch: Channel, ref: Command, n: nat, pre: nat, re: nat) {
    && ref.kind == Refresh
    && ch.refreshQ != [] && ch.refreshQ[0] == ref
    && |OpenBanks(ch, ref.addr.rank)| == n
    && Within(ch, ref.addr.rank, pre, re)
  }

  // The history has grown, in this rank by precharges only.
  ghost predicate OnlyPrecharges(h: seq<Issued>, h': seq<Issued>, rank: int) {
    && h <= h'
    && forall i :: |h| <= i < |h'| && h'[i].cmd.addr.rank == rank ==> h'[i].cmd.kind == Precharge
  }

  // Within a cycle: the fence is up and the refresh has not gone out.
  ghost predicate Closer(s: Ctrl, s': Ctrl, ref: Command, n: nat, pre: nat, re: nat) {
    && s'.clk == s.clk && s'.queues.inRef
    && Converging(s'.channel, ref, n, pre, re)
    && OnlyPrecharges(s.issued, s'.issued, ref.addr.rank)
  }

  ghost predicate Pursued(cfg: Config, s: Ctrl, s': Ctrl, ref: Command, n: nat, pre: nat, re: nat) {
    Sound(cfg, s') && Closer(s, s', ref, n, pre, re)
  }

  lemma IssueIssued(cfg: Config, s: Ctrl, c: Command)
    requires !Issue(cfg, s, c).halted
    ensures var s' := Issue(cfg, s, c);
            && StateAccepts(s.channel, c)
            && s'.channel == Apply(cfg, s.channel, c, s.clk)
            && s'.issued == s.issued + [Issued(c, s.clk)]
            && s'.clk == s.clk && s'.queues == s.queues
  {
    HaltsOnce(cfg, s, c);
    IssueDataHardware(cfg, s, c);
  }

  lemma ElsewhereConverges(cfg: Config, ch: Channel, c: Command, clk: nat,
                           ref: Command, n: nat, pre: nat, re: nat, step: nat, rp: nat)
    requires RefreshTables(cfg, step, rp) && Converging(ch, ref, n, pre, re)
    requires StateAccepts(ch, c) && c.addr.rank != ref.addr.rank && !c.IsRefresh()
    ensures Converging(Apply(cfg, ch, c, clk), ref, n, pre, re)
  {
    OtherRank(cfg, ch, c, clk, ref.addr.rank, pre, re, step, rp);
    ApplyQueue(cfg, ch, c, clk);
  }

  lemma ElsewherePursues(cfg: Config, s: Ctrl, q: Queues, c: Command, l: nat, i: nat,
                         ref: Command, n: nat, pre: nat, re: nat, step: nat, rp: nat)
    requires ConfigOk(cfg) && Sound(cfg, s) && RefreshTables(cfg, step, rp)
    requires s.queues.inRef && Converging(s.channel, ref, n, pre, re)
    requires ChosenFrom(cfg, s.channel, s.queues, q, c, l, i)
    requires Safe(cfg, s.(queues := q)) && Issuable(cfg, s.(queues := q), c) && !c.IsRefresh()
    ensures Pursued(cfg, s, Issue(cfg, s.(queues := q), c), ref, n, pre, re)
  {
    FetchedElsewhere(cfg, s, q, c, l, i);
    IssueFetched(cfg, s, q, c, l, i);
    IssueIssued(cfg, s.(queues := q), c);
    ElsewhereConverges(cfg, s.channel, c, s.clk, ref, n, pre, re, step, rp);
    PursuedBy(cfg, s, Issue(cfg, s.(queues := q), c), c, ref, n, pre, re);
  }

  lemma PursuedBy(cfg: Config, s: Ctrl, s': Ctrl, c: Command, ref: Command, n: nat, pre: nat, re: nat)
    requires Sound(cfg, s') && s'.clk == s.clk && s'.queues.inRef
    requires s'.issued == s.issued + [Issued(c, s.clk)]
    requires c.addr.rank == ref.addr.rank ==> c.kind == Precharge
    requires Converging(s'.channel, ref, n, pre, re)
    ensures Pursued(cfg, s, s', ref, n, pre, re)
  {
  }

  lemma RequeuePursues(cfg: Config, s: Ctrl, q: Queues, ref: Command, n: nat, pre: nat, re: nat)
    requires Sound(cfg, s) && Safe(cfg, s.(queues := q)) && q.lanes == s.queues.lanes && q.inRef
    requires Converging(s.channel, ref, n, pre, re)
    ensures Pursued(cfg, s, s.(queues := q), ref, n, pre, re)
  {
    RequeueSound(cfg, s, q);
  }

  lemma FetchPursues(cfg: Config, s: Ctrl, ref: Command, n: nat, pre: nat, re: nat, step: nat, rp: nat)
    requires RunsOk(cfg) && Sound(cfg, s) && RefreshTables(cfg, step, rp)
    requires s.queues.inRef && Converging(s.channel, ref, n, pre, re)
    ensures var (q, pick) := Fetch(cfg, s.channel, s.queues, |s.queues.lanes|);
            && ((pick.Chosen? && pick.cmd.IsReadWrite()) || Pursued(cfg, s, s.(queues := q), ref, n, pre, re))
            && (pick.Chosen? ==> Pursued(cfg, s, Issue(cfg, s.(queues := q), pick.cmd), ref, n, pre, re))
  {
    var l, i := FetchSafe(cfg, s);
    var (q, pick) := Fetch(cfg, s.channel, s.queues, |s.queues.lanes|);
    FetchKeepsFence(cfg, s);
    if !(pick.Chosen? && pick.cmd.IsReadWrite()) {
      RequeuePursues(cfg, s, q, ref, n, pre, re);
    }
    if pick.Chosen? {
      ElsewherePursues(cfg, s, q, pick.cmd, l, i, ref, n, pre, re, step, rp);
    }
  }

  lemma FetchKeepsFence(cfg: Config, s: Ctrl)
    requires ConfigOk(cfg) && Safe(cfg, s)
    ensures Fetch(cfg, s.channel, s.queues, |s.queues.lanes|).0.inRef == s.queues.inRef
  {
    AgreesIsOk(cfg, s.issued, s.channel);
    var l, i := FetchMeaning(cfg, s.channel, s.queues, |s.queues.lanes|);
  }

  lemma SecondPursues(cfg: Config, s: Ctrl, first: Command, ref: Command, n: nat, pre: nat, re: nat, step: nat, rp: nat)
    requires RunsOk(cfg) && Sound(cfg, s) && RefreshTables(cfg, step, rp)
    requires first.IsReadWrite() ==> ColumnsBlocked(cfg, s.channel, s.clk)
    requires s.queues.inRef && Converging(s.channel, ref, n, pre, re)
    ensures Closer(s, SecondCommand(cfg, s, first), ref, n, pre, re)
  {
    hide Closer, Issue, Fetch, Converging, RefreshTables, Safe, Queued, Faithful, OnlyPrecharges, ConfigOk, ColumnsBlocked, ChosenFrom, SecondCommand;
    SecondIs(cfg, s, first);
    FetchPursues(cfg, s, ref, n, pre, re, step, rp);
    var l, i := FetchSafe(cfg, s);
    var (q, pick) := Fetch(cfg, s.channel, s.queues, |s.queues.lanes|);
    if pick.Chosen? && pick.cmd.IsReadWrite() && first.IsReadWrite() {
      NoSecondColumn(cfg, s, q, pick.cmd, l, i);
    }
  }

  lemma SecondIs(cfg: Config, s: Ctrl, first: Command)
    ensures var (q, pick) := Fetch(cfg, s.channel, s.queues, |s.queues.lanes|);
            && (pick.Nothing? ==> SecondCommand(cfg, s, first) == s.(queues := q))
            && (pick.Chosen? ==>
                  SecondCommand(cfg, s, first)
                  == if pick.cmd.IsReadWrite() != first.IsReadWrite() then Issue(cfg, s.(queues := q), pick.cmd) else s.(queues := q))
  {
  }

  lemma OneLessOpen(open: set<BankId>, open': set<BankId>, id: BankId)
    requires id in open && open' == open - {id}
    ensures |open| == |open'| + 1
  {
  }

  lemma PrechargeConverges(cfg: Config, ch: Channel, ch': Channel, c: Command, clk: nat,
                           ref: Command, n: nat, pre: nat, re: nat, step: nat, rp: nat, pre': nat, re': nat)
    requires StateAccepts(ch, c) && ch' == Apply(cfg, ch, c, clk)
    requires c.kind == Precharge && c.addr.rank == ref.addr.rank && RefreshTables(cfg, step, rp)
    requires Converging(ch, ref, n + 1, pre, re)
    requires c.Bank() in OpenBanks(ch, ref.addr.rank)
    requires pre' == Max(pre, clk + step) && re' == Max(re, clk + rp)
    ensures Converging(ch', ref, n, pre', re')
  {
    PrechargeInRank(cfg, ch, ch', c, clk, pre, re, step, rp, pre', re');
    ApplyQueue(cfg, ch, c, clk);
    OneLessOpen(OpenBanks(ch, ref.addr.rank), OpenBanks(ch', ref.addr.rank), c.Bank());
  }

  lemma CloserOn(s: Ctrl, mid: Ctrl, s': Ctrl, ref: Command, n: nat, pre: nat, re: nat)
    requires OnlyPrecharges(s.issued, mid.issued, ref.addr.rank) && mid.clk == s.clk
    requires Closer(mid, s', ref, n, pre, re)
    ensures Closer(s, s', ref, n, pre, re)
  {
    ExtendOnly(s.issued, mid.issued, s'.issued, ref.addr.rank);
  }

  lemma AfterFirst(cfg: Config, s: Ctrl, mid: Ctrl, first: Command, ref: Command, n: nat, pre: nat, re: nat, step: nat, rp: nat)
    requires RunsOk(cfg) && RefreshTables(cfg, step, rp)
    requires Pursued(cfg, s, mid, ref, n, pre, re)
    requires cfg.dualCommand && first.IsReadWrite() ==> ColumnsBlocked(cfg, mid.channel, mid.clk)
    ensures Closer(s, if cfg.dualCommand then SecondCommand(cfg, mid, first) else mid, ref, n, pre, re)
  {
    if cfg.dualCommand {
      SecondPursues(cfg, mid, first, ref, n, pre, re, step, rp);
      CloserOn(s, mid, SecondCommand(cfg, mid, first), ref, n, pre, re);
    }
  }

  // The three things a cycle can do for the oldest request.
  datatype Cycle = Refreshes | Precharges | Stalls

  function CycleOf(cfg: Config, s: Ctrl): Cycle
    requires s.channel.refreshQ != []
  {
    match GetReady(cfg, s.channel, s.channel.refreshQ[0], s.clk)
    case Ready(c) => if c.IsRefresh() then Refreshes else Precharges
    case _ => Stalls
  }

  lemma FenceSound(cfg: Config, s: Ctrl)
    requires Sound(cfg, s) && s.channel.refreshQ != []
    ensures var q := Fence(cfg, s.channel.refreshQ[0], s.queues);
            q.inRef && Sound(cfg, s.(queues := q))
  {
    FenceSafe(cfg, s);
    RequeueSound(cfg, s, Fence(cfg, s.channel.refreshQ[0], s.queues));
  }

  lemma StallPursues(cfg: Config, s: Ctrl, ref: Command, n: nat, pre: nat, re: nat, step: nat, rp: nat)
    requires RunsOk(cfg) && Sound(cfg, s) && RefreshTables(cfg, step, rp)
    requires Converging(s.channel, ref, n, pre, re) && CycleOf(cfg, s) == Stalls
    ensures Closer(s, IssueStep(cfg, s), ref, n, pre, re)
  {
    FenceSound(cfg, s);
    FinishRefreshMeaning(cfg, s);
    var s1 := s.(queues := Fence(cfg, ref, s.queues));
    FetchPursues(cfg, s1, ref, n, pre, re, step, rp);
    FetchStepSound(cfg, s1);
    var (q, pick) := Fetch(cfg, s1.channel, s1.queues, |s1.queues.lanes|);
    assert FirstPick(cfg, s.channel, s.queues) == (q, pick);
    if pick.Chosen? {
      var mid := Issue(cfg, s1.(queues := q), pick.cmd);
      AfterFirst(cfg, s, mid, pick.cmd, ref, n, pre, re, step, rp);
    }
  }

  lemma RefreshStepRuns(cfg: Config, s: Ctrl)
    requires RunsOk(cfg) && Sound(cfg, s) && s.channel.refreshQ != []
    ensures var (q, pick) := FinishRefresh(cfg, s.channel, s.queues);
            pick.Chosen? ==> !Issue(cfg, s.(queues := q), pick.cmd).halted
  {
    RefreshStepSound(cfg, s);
  }

  // The command of a cycle that precharges.
  lemma PrechargeCycle(cfg: Config, s: Ctrl, ref: Command) returns (c: Command)
    requires RunsOk(cfg) && Sound(cfg, s)
    requires s.channel.refreshQ != [] && s.channel.refreshQ[0] == ref && ref.kind == Refresh
    requires CycleOf(cfg, s) == Precharges
    ensures GetReady(cfg, s.channel, ref, s.clk) == Ready(c)
    ensures c.kind == Precharge && c.addr.rank == ref.addr.rank && c.Bank() in OpenBanks(s.channel, ref.addr.rank)
    ensures !Issue(cfg, s.(queues := Fence(cfg, ref, s.queues)), c).halted
  {
    RefreshStepRuns(cfg, s);
    AgreesIsOk(cfg, s.issued, s.channel);
    assert RequestOk(cfg, s.channel.refreshQ[0]);
    RankReplyCases(cfg, s.channel, ref, s.clk);
    c := GetReady(cfg, s.channel, ref, s.clk).cmd;
  }

  lemma PrechargeMid(cfg: Config, s: Ctrl, mid: Ctrl, c: Command, ref: Command,
                     n: nat, pre: nat, re: nat, step: nat, rp: nat, pre': nat, re': nat)
    requires RefreshTables(cfg, step, rp) && Converging(s.channel, ref, n + 1, pre, re)
    requires c.kind == Precharge && c.addr.rank == ref.addr.rank && c.Bank() in OpenBanks(s.channel, ref.addr.rank)
    requires mid.clk == s.clk && mid.queues.inRef && mid.issued == s.issued + [Issued(c, s.clk)]
    requires StateAccepts(s.channel, c) && mid.channel == Apply(cfg, s.channel, c, s.clk)
    requires pre' == Max(pre, s.clk + step) && re' == Max(re, s.clk + rp)
    ensures Closer(s, mid, ref, n, pre', re')
  {
    PrechargeConverges(cfg, s.channel, mid.channel, c, s.clk, ref, n, pre, re, step, rp, pre', re');
  }

  lemma PrechargeIssued(cfg: Config, s: Ctrl, q: Queues, c: Command, ref: Command,
                        n: nat, pre: nat, re: nat, step: nat, rp: nat, pre': nat, re': nat)
    requires RefreshTables(cfg, step, rp) && Converging(s.channel, ref, n + 1, pre, re)
    requires c.kind == Precharge && c.addr.rank == ref.addr.rank && c.Bank() in OpenBanks(s.channel, ref.addr.rank)
    requires q.inRef && !Issue(cfg, s.(queues := q), c).halted
    requires pre' == Max(pre, s.clk + step) && re' == Max(re, s.clk + rp)
    ensures Closer(s, Issue(cfg, s.(queues := q), c), ref, n, pre', re')
  {
    IssueIssued(cfg, s.(queues := q), c);
    PrechargeMid(cfg, s, Issue(cfg, s.(queues := q), c), c, ref, n, pre, re, step, rp, pre', re');
  }

  // Such a cycle issues what the fenced request has been told.
  lemma PickOfReady(cfg: Config, s: Ctrl, ref: Command, c: Command)
    requires s.channel.refreshQ != [] && s.channel.refreshQ[0] == ref && c.kind == Precharge && s.queues.clk == s.clk
    requires GetReady(cfg, s.channel, ref, s.clk) == Ready(c)
    ensures FirstPick(cfg, s.channel, s.queues) == (Fence(cfg, ref, s.queues), Chosen(c)) && !c.IsReadWrite()
  {
  }

  lemma PrechargePick(cfg: Config, s: Ctrl, ref: Command)
    requires RunsOk(cfg) && Sound(cfg, s)
    requires s.channel.refreshQ != [] && s.channel.refreshQ[0] == ref && ref.kind == Refresh
    requires CycleOf(cfg, s) == Precharges
    ensures GetReady(cfg, s.channel, ref, s.clk).Ready?
    ensures !GetReady(cfg, s.channel, ref, s.clk).cmd.IsReadWrite()
    ensures FirstPick(cfg, s.channel, s.queues) ==
              (Fence(cfg, ref, s.queues), Chosen(GetReady(cfg, s.channel, ref, s.clk).cmd))
  {
    hide *;
    ClocksAgree(cfg, s);
    var c := PrechargeCycle(cfg, s, ref);
    PickOfReady(cfg, s, ref, c);
  }

  lemma ClocksAgree(cfg: Config, s: Ctrl)
    requires Sound(cfg, s)
    ensures s.queues.clk == s.clk
  {
  }

  lemma PrechargeCycleCloser(cfg: Config, s: Ctrl, ref: Command,
                             n: nat, pre: nat, re: nat, step: nat, rp: nat, pre': nat, re': nat)
    requires RunsOk(cfg) && Sound(cfg, s) && RefreshTables(cfg, step, rp)
    requires Converging(s.channel, ref, n + 1, pre, re) && CycleOf(cfg, s) == Precharges
    requires pre' == Max(pre, s.clk + step) && re' == Max(re, s.clk + rp)
    requires GetReady(cfg, s.channel, ref, s.clk).Ready?
    ensures Closer(s, Issue(cfg, s.(queues := Fence(cfg, ref, s.queues)), GetReady(cfg, s.channel, ref, s.clk).cmd),
                   ref, n, pre', re')
  {
    var c := PrechargeCycle(cfg, s, ref);
    PrechargeIssued(cfg, s, Fence(cfg, ref, s.queues), c, ref, n, pre, re, step, rp, pre', re');
  }

  lemma PrechargeCyclePursues(cfg: Config, s: Ctrl, ref: Command, n: nat, pre: nat, re: nat, step: nat, rp: nat,
                              pre': nat, re': nat)
    requires RunsOk(cfg) && Sound(cfg, s) && RefreshTables(cfg, step, rp)
    requires Converging(s.channel, ref, n + 1, pre, re) && CycleOf(cfg, s) == Precharges
    requires pre' == Max(pre, s.clk + step) && re' == Max(re, s.clk + rp)
    ensures Closer(s, IssueStep(cfg, s), ref, n, pre', re')
  {
    PrechargePick(cfg, s, ref);
    var c := GetReady(cfg, s.channel, ref, s.clk).cmd;
    PrechargeCycleCloser(cfg, s, ref, n, pre, re, step, rp, pre', re');
    RefreshStepSound(cfg, s);
    AfterFirst(cfg, s, Issue(cfg, s.(queues := Fence(cfg, ref, s.queues)), c), c, ref, n, pre', re', step, rp);
  }

  lemma SecondExtends(cfg: Config, s: Ctrl, first: Command)
    requires !SecondCommand(cfg, s, first).halted
    ensures s.issued <= SecondCommand(cfg, s, first).issued
  {
    var (q, pick) := Fetch(cfg, s.channel, s.queues, |s.queues.lanes|);
    if pick.Chosen? && pick.cmd.IsReadWrite() != first.IsReadWrite() {
      IssueIssued(cfg, s.(queues := q), pick.cmd);
    }
  }

  lemma RefreshCycleIssues(cfg: Config, s: Ctrl, ref: Command, n: nat, pre: nat, re: nat)
    requires RunsOk(cfg) && Sound(cfg, s)
    requires Converging(s.channel, ref, n, pre, re) && CycleOf(cfg, s) == Refreshes
    ensures s.issued + [Issued(ref, s.clk)] <= IssueStep(cfg, s).issued
  {
    FinishRefreshMeaning(cfg, s);
    IssueStepSound(cfg, s);
    RefreshStepSound(cfg, s);
    var (q, pick) := FinishRefresh(cfg, s.channel, s.queues);
    assert FirstPick(cfg, s.channel, s.queues) == (q, pick) && pick.cmd == ref;
    var mid := Issue(cfg, s.(queues := q), ref);
    IssueIssued(cfg, s.(queues := q), ref);
    if cfg.dualCommand {
      SecondExtends(cfg, mid, ref);
    }
  }

  // ------------------------------------------------------------- the bound

  // How long n precharges, `step` cycles apart, take from the first to the last.
  function Closing(n: nat, step: nat): nat {
    if n <= 1 then 0 else Closing(n - 1, step) + step
  }

  lemma {:induction false} ClosingIs(n: nat, step: nat)
    requires n > 0
    ensures Closing(n, step) == (n - 1) * step
  {
    if n > 1 {
      ClosingIs(n - 1, step);
    }
  }

  // The cycle by which the refresh has gone out: the open banks are precharged
  // one by one once the last of them is ready, and the rank then recovers.
  function Deadline(clk: nat, n: nat, pre: nat, re: nat, step: nat, rp: nat): int {
    if n == 0 then Max(clk, re) else Max(Max(clk, pre) + Closing(n, step) + rp, re)
  }

  lemma StallKeepsDeadline(clk: nat, n: nat, pre: nat, re: nat, step: nat, rp: nat)
    requires 1 <= rp && (if n == 0 then re > clk else pre > clk)
    ensures Deadline(clk + 1, n, pre, re, step, rp) <= Deadline(clk, n, pre, re, step, rp)
    ensures clk < Deadline(clk, n, pre, re, step, rp)
  {
  }

  lemma PrechargeKeepsDeadline(clk: nat, n: nat, pre: nat, re: nat, step: nat, rp: nat, pre': nat, re': nat)
    requires 1 <= step && 1 <= rp
    requires pre' == Max(pre, clk + step) && re' == Max(re, clk + rp)
    ensures Deadline(clk + 1, n, pre', re', step, rp) <= Deadline(clk, n + 1, pre, re, step, rp)
    ensures clk < Deadline(clk, n + 1, pre, re, step, rp)
  {
  }

  lemma WaitsMeans(ch: Channel, ref: Command, n: nat, pre: nat, re: nat, clk: nat)
    requires Converging(ch, ref, n, pre, re)
    requires Waits(ch, OpenBanks(ch, ref.addr.rank), ref.addr.rank, clk)
    ensures if n == 0 then re > clk else pre > clk
  {
    var open := OpenBanks(ch, ref.addr.rank);
    if open != {} {
      var id :| id in open;
    }
  }

  lemma StallMeans(cfg: Config, s: Ctrl, ref: Command, n: nat, pre: nat, re: nat)
    requires ConfigOk(cfg) && Safe(cfg, s)
    requires Converging(s.channel, ref, n, pre, re) && CycleOf(cfg, s) == Stalls
    ensures if n == 0 then re > s.clk else pre > s.clk
  {
    AgreesIsOk(cfg, s.issued, s.channel);
    assert RequestOk(cfg, s.channel.refreshQ[0]);
    RankReplyCases(cfg, s.channel, ref, s.clk);
    WaitsMeans(s.channel, ref, n, pre, re, s.clk);
  }

  lemma PrechargeMeans(cfg: Config, s: Ctrl, ref: Command, n: nat, pre: nat, re: nat)
    requires RunsOk(cfg) && Sound(cfg, s)
    requires Converging(s.channel, ref, n, pre, re) && CycleOf(cfg, s) == Precharges
    ensures n > 0
  {
    var c := PrechargeCycle(cfg, s, ref);
  }

  // One cycle's attempt: the refresh goes out, or the deadline stands and has
  // not been reached.
  ghost predicate Progress(s: Ctrl, s': Ctrl, ref: Command, n: nat, pre: nat, re: nat, step: nat, rp: nat, due: int) {
    || s.issued + [Issued(ref, s.clk)] <= s'.issued
    || (Closer(s, s', ref, n, pre, re) && s.clk < due && Deadline(s.clk + 1, n, pre, re, step, rp) <= due)
  }

  lemma MakeProgress(s: Ctrl, s': Ctrl, ref: Command, n: nat, pre: nat, re: nat, step: nat, rp: nat, due: int)
    requires Closer(s, s', ref, n, pre, re) && s.clk < due && Deadline(s.clk + 1, n, pre, re, step, rp) <= due
    ensures Progress(s, s', ref, n, pre, re, step, rp, due)
  {
  }

  lemma StallProgress(cfg: Config, s: Ctrl, ref: Command, n: nat, pre: nat, re: nat, step: nat, rp: nat)
    requires RunsOk(cfg) && Sound(cfg, s) && RefreshTables(cfg, step, rp)
    requires Converging(s.channel, ref, n, pre, re) && CycleOf(cfg, s) == Stalls
    ensures Progress(s, IssueStep(cfg, s), ref, n, pre, re, step, rp, Deadline(s.clk, n, pre, re, step, rp))
  {
    hide *;
    SafeFromSound(cfg, s, step, rp);
    StallMeans(cfg, s, ref, n, pre, re);
    StallKeepsDeadline(s.clk, n, pre, re, step, rp);
    StallPursues(cfg, s, ref, n, pre, re, step, rp);
    MakeProgress(s, IssueStep(cfg, s), ref, n, pre, re, step, rp, Deadline(s.clk, n, pre, re, step, rp));
  }

  lemma SafeFromSound(cfg: Config, s: Ctrl, step: nat, rp: nat)
    requires RunsOk(cfg) && Sound(cfg, s) && RefreshTables(cfg, step, rp)
    ensures ConfigOk(cfg) && Safe(cfg, s) && 1 <= step && 1 <= rp
  {
  }

  lemma PrechargeProgress(cfg: Config, s: Ctrl, ref: Command, n: nat, pre: nat, re: nat, step: nat, rp: nat,
                          pre': nat, re': nat)
    requires RunsOk(cfg) && Sound(cfg, s) && RefreshTables(cfg, step, rp)
    requires Converging(s.channel, ref, n + 1, pre, re) && CycleOf(cfg, s) == Precharges
    requires pre' == Max(pre, s.clk + step) && re' == Max(re, s.clk + rp)
    ensures Progress(s, IssueStep(cfg, s), ref, n, pre', re', step, rp, Deadline(s.clk, n + 1, pre, re, step, rp))
  {
    hide *;
    SafeFromSound(cfg, s, step, rp);
    PrechargeKeepsDeadline(s.clk, n, pre, re, step, rp, pre', re');
    PrechargeCyclePursues(cfg, s, ref, n, pre, re, step, rp, pre', re');
    MakeProgress(s, IssueStep(cfg, s), ref, n, pre', re', step, rp, Deadline(s.clk, n + 1, pre, re, step, rp));
  }

  lemma LaterBounds(clk: nat, pre: nat, re: nat, step: nat, rp: nat) returns (pre': nat, re': nat)
    ensures pre' == Max(pre, clk + step) && re' == Max(re, clk + rp)
  {
    pre', re' := Max(pre, clk + step), Max(re, clk + rp);
  }

  lemma RefreshProgress(cfg: Config, s: Ctrl, ref: Command, n: nat, pre: nat, re: nat, step: nat, rp: nat, due: int)
    requires RunsOk(cfg) && Sound(cfg, s)
    requires Converging(s.channel, ref, n, pre, re) && CycleOf(cfg, s) == Refreshes
    ensures Progress(s, IssueStep(cfg, s), ref, n, pre, re, step, rp, due)
  {
    RefreshCycleIssues(cfg, s, ref, n, pre, re);
  }

  lemma CloserProgress(cfg: Config, s: Ctrl, ref: Command, n: nat, pre: nat, re: nat, step: nat, rp: nat)
    returns (n': nat, pre': nat, re': nat)
    requires RunsOk(cfg) && Sound(cfg, s) && RefreshTables(cfg, step, rp)
    requires Converging(s.channel, ref, n, pre, re) && CycleOf(cfg, s) == Precharges
    ensures n' <= n
    ensures Progress(s, IssueStep(cfg, s), ref, n', pre', re', step, rp, Deadline(s.clk, n, pre, re, step, rp))
  {
    pre', re' := LaterBounds(s.clk, pre, re, step, rp);
    PrechargeMeans(cfg, s, ref, n, pre, re);
    n' := n - 1;
    PrechargeProgress(cfg, s, ref, n', pre, re, step, rp, pre', re');
  }

  lemma IssueStepProgress(cfg: Config, s: Ctrl, ref: Command, n: nat, pre: nat, re: nat, step: nat, rp: nat)
    returns (n': nat, pre': nat, re': nat)
    requires RunsOk(cfg) && Sound(cfg, s) && RefreshTables(cfg, step, rp)
    requires Converging(s.channel, ref, n, pre, re)
    ensures n' <= n
    ensures Progress(s, IssueStep(cfg, s), ref, n', pre', re', step, rp, Deadline(s.clk, n, pre, re, step, rp))
  {
    if CycleOf(cfg, s) == Precharges {
      n', pre', re' := CloserProgress(cfg, s, ref, n, pre, re, step, rp);
    } else {
      n', pre', re' := n, pre, re;
      if CycleOf(cfg, s) == Stalls {
        StallProgress(cfg, s, ref, n, pre, re, step, rp);
      } else {
        RefreshProgress(cfg, s, ref, n, pre, re, step, rp, Deadline(s.clk, n, pre, re, step, rp));
      }
    }
  }

  // Scheduling transactions and counting the cycle leave channel and history alone.
  lemma RestOfTick(cfg: Config, s: Ctrl)
    requires !IssueStep(cfg, TickRefresh(cfg, s)).halted
    ensures var s1 := IssueStep(cfg, TickRefresh(cfg, s));
            var s' := Tick(cfg, s);
            s'.channel == s1.channel && s'.issued == s1.issued && s'.clk == s1.clk + 1
  {
    var s1 := IssueStep(cfg, TickRefresh(cfg, s));
    MoveHardware(cfg, s1.(writeDraining := Draining(cfg, s1)));
  }

  lemma TickRefreshConverges(cfg: Config, s: Ctrl, ref: Command, n: nat, pre: nat, re: nat)
    requires Converging(s.channel, ref, n, pre, re)
    ensures Converging(TickRefresh(cfg, s).channel, ref, n, pre, re)
  {
  }

  // What still holds of a state in which the refresh has not gone out.
  ghost predicate StillDue(h: seq<Issued>, s': Ctrl, ref: Command, n: nat, pre: nat, re: nat, step: nat, rp: nat, due: int) {
    && Converging(s'.channel, ref, n, pre, re)
    && OnlyPrecharges(h, s'.issued, ref.addr.rank)
    && Deadline(s'.clk, n, pre, re, step, rp) <= due
  }

  lemma TickRuns(cfg: Config, s: Ctrl)
    requires RunsOk(cfg) && Sound(cfg, s)
    ensures !IssueStep(cfg, TickRefresh(cfg, s)).halted
  {
    TickRefreshSound(cfg, s);
    IssueStepSound(cfg, TickRefresh(cfg, s));
  }

  // What a cycle that tried at s (its issuing done at s1, its end s') has achieved.
  ghost predicate TickDone(s: Ctrl, s': Ctrl, ref: Command, n: nat, pre: nat, re: nat, step: nat, rp: nat, due: int) {
    && s'.clk == s.clk + 1
    && (|| s.issued + [Issued(ref, s.clk)] <= s'.issued
        || (StillDue(s.issued, s', ref, n, pre, re, step, rp, due) && s.clk < due))
  }

  lemma ProgressToTick(s: Ctrl, s1: Ctrl, s2: Ctrl, s': Ctrl, ref: Command, n: nat, pre: nat, re: nat, step: nat, rp: nat, due: int)
    requires Progress(s1, s2, ref, n, pre, re, step, rp, due)
    requires s1.issued == s.issued && s1.clk == s.clk
    requires s'.channel == s2.channel && s'.issued == s2.issued && s'.clk == s.clk + 1
    ensures TickDone(s, s', ref, n, pre, re, step, rp, due)
  {
  }

  lemma TickClock(cfg: Config, s: Ctrl)
    requires RunsOk(cfg) && Sound(cfg, s)
    ensures var s2 := IssueStep(cfg, TickRefresh(cfg, s));
            var s' := Tick(cfg, s);
            s'.channel == s2.channel && s'.issued == s2.issued && s'.clk == s.clk + 1
  {
    TickRuns(cfg, s);
    RestOfTick(cfg, s);
    IssueStepClock(cfg, TickRefresh(cfg, s));
  }

  lemma IssueStepClock(cfg: Config, s: Ctrl)
    requires !IssueStep(cfg, s).halted
    ensures IssueStep(cfg, s).clk == s.clk
  {
    var (q, pick) := FirstPick(cfg, s.channel, s.queues);
    if pick.Chosen? {
      IssueIssued(cfg, s.(queues := q), pick.cmd);
      var mid := Issue(cfg, s.(queues := q), pick.cmd);
      var (q', second) := Fetch(cfg, mid.channel, mid.queues, |mid.queues.lanes|);
      if cfg.dualCommand && second.Chosen? && second.cmd.IsReadWrite() != pick.cmd.IsReadWrite() {
        IssueIssued(cfg, mid.(queues := q'), second.cmd);
      }
    }
  }

  lemma TickProgress(cfg: Config, s: Ctrl, ref: Command, n: nat, pre: nat, re: nat, step: nat, rp: nat)
    returns (n': nat, pre': nat, re': nat)
    requires RunsOk(cfg) && Sound(cfg, s) && RefreshTables(cfg, step, rp)
    requires Converging(s.channel, ref, n, pre, re)
    ensures n' <= n
    ensures TickDone(s, Tick(cfg, s), ref, n', pre', re', step, rp, Deadline(s.clk, n, pre, re, step, rp))
  {
    var s1 := TickRefresh(cfg, s);
    TickRefreshSound(cfg, s);
    TickRefreshConverges(cfg, s, ref, n, pre, re);
    n', pre', re' := IssueStepProgress(cfg, s1, ref, n, pre, re, step, rp);
    TickClock(cfg, s);
    ProgressToTick(s, s1, IssueStep(cfg, s1), Tick(cfg, s), ref, n', pre', re', step, rp, Deadline(s.clk, n, pre, re, step, rp));
  }

  lemma ExtendOnly(h: seq<Issued>, mid: seq<Issued>, h': seq<Issued>, rank: int)
    requires OnlyPrecharges(h, mid, rank) && OnlyPrecharges(mid, h', rank)
    ensures OnlyPrecharges(h, h', rank)
  {
    forall i | |h| <= i < |h'| && h'[i].cmd.addr.rank == rank
      ensures h'[i].cmd.kind == Precharge
    {
      if i < |mid| {
        assert h'[i] == mid[i];
      }
    }
  }

  lemma StepGrows(cfg: Config, s: Ctrl, op: Op)
    requires !s.halted && !op.OpTick?
    ensures var s' := Step(cfg, s, op); s'.channel == s.channel && s'.issued == s.issued && s'.clk == s.clk
  {
  }

  lemma TickExtends(cfg: Config, s: Ctrl)
    requires RunsOk(cfg) && Sound(cfg, s)
    ensures s.issued <= Tick(cfg, s).issued
  {
    var s1 := TickRefresh(cfg, s);
    TickRuns(cfg, s);
    RestOfTick(cfg, s);
    IssueStepExtends(cfg, s1);
  }

  lemma IssueStepExtends(cfg: Config, s: Ctrl)
    requires !IssueStep(cfg, s).halted
    ensures s.issued <= IssueStep(cfg, s).issued
  {
    var (q, pick) := FirstPick(cfg, s.channel, s.queues);
    if pick.Chosen? {
      IssueIssued(cfg, s.(queues := q), pick.cmd);
      if cfg.dualCommand {
        SecondExtends(cfg, Issue(cfg, s.(queues := q), pick.cmd), pick.cmd);
      }
    }
  }

  lemma StepExtends(cfg: Config, s: Ctrl, op: Op)
    requires RunsOk(cfg) && Sound(cfg, s)
    ensures s.issued <= Step(cfg, s, op).issued
  {
    if op.OpTick? {
      TickExtends(cfg, s);
    } else {
      StepGrows(cfg, s, op);
    }
  }

  lemma {:induction false} RunFromSound(cfg: Config, s: Ctrl, ops: seq<Op>)
    requires RunsOk(cfg) && Sound(cfg, s)
    ensures Sound(cfg, Run(cfg, s, ops))
  {
    if ops != [] {
      RunFromSound(cfg, s, ops[..|ops| - 1]);
      StepSound(cfg, Run(cfg, s, ops[..|ops| - 1]), ops[|ops| - 1]);
    }
  }

  // The refresh went out no later than `due`, and before it the rank saw
  // precharges only.
  predicate RefreshedAt(h: seq<Issued>, from: nat, rank: int, due: int, i: nat) {
    && from <= i < |h|
    && h[i].cmd.kind == Refresh && h[i].cmd.addr.rank == rank && h[i].clk <= due
    && forall j :: from <= j < i && h[j].cmd.addr.rank == rank ==> h[j].cmd.kind == Precharge
  }

  function Ticks(ops: seq<Op>): nat {
    if ops == [] then 0 else Ticks(ops[..|ops| - 1]) + if ops[|ops| - 1].OpTick? then 1 else 0
  }

  // What a cycle means for a wait that began when the history was h0.
  lemma TickSince(h0: seq<Issued>, s: Ctrl, s': Ctrl, ref: Command, n: nat, pre: nat, re: nat, step: nat, rp: nat, own: int, due: int)
    requires TickDone(s, s', ref, n, pre, re, step, rp, own) && own <= due && s.clk <= due
    requires OnlyPrecharges(h0, s.issued, ref.addr.rank) && ref.kind == Refresh
    ensures if s.issued + [Issued(ref, s.clk)] <= s'.issued
            then RefreshedAt(s'.issued, |h0|, ref.addr.rank, due, |s.issued|)
            else StillDue(h0, s', ref, n, pre, re, step, rp, due) && s.clk < due
  {
    if s.issued + [Issued(ref, s.clk)] <= s'.issued {
      assert s'.issued[|s.issued|] == Issued(ref, s.clk);
      forall j | |h0| <= j < |s.issued| && s'.issued[j].cmd.addr.rank == ref.addr.rank
        ensures s'.issued[j].cmd.kind == Precharge
      {
        assert s'.issued[j] == s.issued[j];
      }
    } else {
      ExtendOnly(h0, s.issued, s'.issued, ref.addr.rank);
    }
  }

  // One call during the wait.
  lemma StepProgress(cfg: Config, h0: seq<Issued>, s: Ctrl, op: Op, ref: Command, n: nat, pre: nat, re: nat, step: nat, rp: nat, due: int)
    returns (done: bool, i: nat, n': nat, pre': nat, re': nat)
    requires RunsOk(cfg) && Sound(cfg, s) && RefreshTables(cfg, step, rp)
    requires StillDue(h0, s, ref, n, pre, re, step, rp, due)
    ensures var s' := Step(cfg, s, op);
            && (done ==> RefreshedAt(s'.issued, |h0|, ref.addr.rank, due, i))
            && (!done ==> n' <= n && StillDue(h0, s', ref, n', pre', re', step, rp, due)
                          && s'.clk == s.clk + (if op.OpTick? then 1 else 0) && (op.OpTick? ==> s.clk < due))
  {
    if op.OpTick? {
      n', pre', re' := TickProgress(cfg, s, ref, n, pre, re, step, rp);
      ClockWithinDeadline(s.clk, n, pre, re, step, rp);
      TickSince(h0, s, Tick(cfg, s), ref, n', pre', re', step, rp, Deadline(s.clk, n, pre, re, step, rp), due);
      i := |s.issued|;
      done := s.issued + [Issued(ref, s.clk)] <= Tick(cfg, s).issued;
    } else {
      StepGrows(cfg, s, op);
      n', pre', re', i, done := n, pre, re, 0, false;
    }
  }

  lemma ClockWithinDeadline(clk: nat, n: nat, pre: nat, re: nat, step: nat, rp: nat)
    ensures clk <= Deadline(clk, n, pre, re, step, rp)
  {
  }

  // From any sound state in which a rank refresh is the oldest request, whatever
  // is called in between: once the clock has ticked past the deadline the refresh
  // has gone out in time, and before it nothing but precharges went to the rank.
  lemma {:induction false} RefreshWithinBound(cfg: Config, s: Ctrl, ref: Command, n: nat, pre: nat, re: nat,
                                              step: nat, rp: nat, ops: seq<Op>)
    returns (done: bool, i: nat, n': nat, pre': nat, re': nat)
    requires RunsOk(cfg) && Sound(cfg, s) && RefreshTables(cfg, step, rp)
    requires Converging(s.channel, ref, n, pre, re)
    ensures var s' := Run(cfg, s, ops);
            var due := Deadline(s.clk, n, pre, re, step, rp);
            && (done ==> RefreshedAt(s'.issued, |s.issued|, ref.addr.rank, due, i))
            && (!done ==> n' <= n && StillDue(s.issued, s', ref, n', pre', re', step, rp, due)
                          && s'.clk == s.clk + Ticks(ops) <= due)
            && (s.clk + Ticks(ops) > due ==> done)
  {
    if ops == [] {
      done, i, n', pre', re' := false, 0, n, pre, re;
      ClockWithinDeadline(s.clk, n, pre, re, step, rp);
    } else {
      var due := Deadline(s.clk, n, pre, re, step, rp);
      var before, op := ops[..|ops| - 1], ops[|ops| - 1];
      done, i, n', pre', re' := RefreshWithinBound(cfg, s, ref, n, pre, re, step, rp, before);
      RunFromSound(cfg, s, before);
      var mid := Run(cfg, s, before);
      if done {
        StepExtends(cfg, mid, op);
        LaterStillRefreshed(mid.issued, Step(cfg, mid, op).issued, |s.issued|, ref.addr.rank, due, i);
      } else {
        done, i, n', pre', re' := StepProgress(cfg, s.issued, mid, op, ref, n', pre', re', step, rp, due);
      }
    }
  }

  lemma LaterStillRefreshed(h: seq<Issued>, h': seq<Issued>, from: nat, rank: int, due: int, i: nat)
    requires RefreshedAt(h, from, rank, due, i) && h <= h'
    ensures RefreshedAt(h', from, rank, due, i)
  {
    assert forall j :: 0 <= j < |h| ==> h'[j] == h[j];
  }
}
