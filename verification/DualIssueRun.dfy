// A run from power-up that loses a read: two ranks, one bank each, dual command
// issue, and timing parameters by which a write lets a read of the other rank
// follow in the same cycle.
module DualIssueRun {
  import opened Basics
  import opened DramTypes
  import opened Banks
  import opened ChannelSpec
  import opened CommandHistory
  import opened QueueSpec
  import opened RefreshSpec
  import opened ControllerSpec
  import opened ControllerSafety
  import opened Census
  import opened ControllerRuns
  import opened ControllerTheorems
  import opened TimingTables
  import opened TimingFacts
  import opened DualIssue
  import opened DualIssueLoss
  import opened ControllerSteps

  const Timings: Params :=
    Params(bankgroups := 1, gddr := false, hbm := true, lpddr4 := false, burst := 1, AL := 0, CL := 1, CWL := 0,
           tCCDL := 1, tCCDS := 1, tRTRS := 0, tRTP := 1, tWTRL := 1, tWTRS := 1, tWR := 1, tRP := 1, tRRDL := 1, tRRDS := 1,
           tRAS := 1, tRCD := 1, tRCDRD := 1, tRCDWR := 2, tRFC := 1, tRFCb := 1, tREFI := 100, tPPD := 0, tCKESR := 1, tXS := 1)

  function Place(hex: int): Address { Address(0, hex % 2, 0, 0, 0, 0) }

  const Setup: Config :=
    Config(ranks := 2, bankgroups := 1, banksPerGroup := 1, tables := TablesOf(Timings), gddr := false, tFAW := 1, t32AW := 1,
           readDelay := 2, perBank := true, queueSize := 1, unified := true, transQueueSize := 4, closePage := false,
           dualCommand := true, policy := RankStaggered, refreshInterval := 100, decode := Place)

  const Bank0: BankId := BankId(0, 0, 0)
  const Bank1: BankId := BankId(1, 0, 0)

  const W: Command := Command(Write, Place(0), 0)
  const R: Command := Command(Read, Place(1), 1)

  function Opening(c: Command): Command { Command(Activate, c.addr, c.hexAddr) }

  // What the run needs of a configuration.
  ghost predicate Fit(p: Params, cfg: Config) {
    && cfg.ranks == 2 && cfg.bankgroups == cfg.banksPerGroup == 1 && cfg.tables == TablesOf(p)
    && p.hbm && p.tRCDRD == 1 && p.tRCDWR == 2 && p.CWL + p.burst + p.tRTRS == p.CL
    && !cfg.gddr && cfg.perBank && cfg.queueSize == 1 && cfg.unified && !cfg.closePage && cfg.dualCommand && cfg.refreshInterval == 100
    && forall hex {:trigger cfg.decode(hex)} :: cfg.decode(hex) == Place(hex)
  }

  lemma SetupFits()
    ensures Fit(Timings, Setup)
  {
    hide TablesOf;
  }

  lemma FitOk(p: Params, cfg: Config)
    requires Fit(p, cfg)
    ensures ConfigOk(cfg) && NumLanes(cfg) == 2 && LaneOf(cfg, Bank0) == 0 && LaneOf(cfg, Bank1) == 1
    ensures W.Bank() == Bank0 && R.Bank() == Bank1 && W.addr.row == R.addr.row == 0 && W.addr.rank == 0 && R.addr.rank == 1
    ensures cfg.unified && cfg.dualCommand && cfg.refreshInterval == 100
  {
    hide TablesOf;
  }

  // ------------------------------------------------------------ the two lanes

  predicate Two(q: Queues) { |q.lanes| == 2 && !q.inRef && 0 <= q.next < 2 }

  lemma FetchTwo(cfg: Config, ch: Channel, q: Queues)
    requires Two(q)
    ensures var own, other := FirstReady(cfg, ch, q.lanes[q.next], q.clk, 0), FirstReady(cfg, ch, q.lanes[1 - q.next], q.clk, 0);
            && (own.Nothing? && other.Nothing? ==> Fetch(cfg, ch, q, 2) == (q, Nothing))
            && (other.Chosen? && !other.cmd.IsReadWrite() ==> Fetch(cfg, ch, q, 2) == (q.(next := 1 - q.next), other))
            && (own.Chosen? && !own.cmd.IsReadWrite() && other.Nothing? ==> Fetch(cfg, ch, q, 2) == (q, own))
  {
    hide FirstReady;
    var q1 := NextLane(q);
    var q2 := NextLane(q1);
    assert q1 == q.(next := 1 - q.next) && q2 == q;
    assert Fetch(cfg, ch, q2, 0) == (q, Nothing);
  }

  predicate Shut(ch: Channel, id: BankId, clk: nat) {
    && id in ch.banks && ch.banks[id].status == Closed && ch.banks[id].times[Activate] <= clk
    && WindowOf(ch.fourAw, id.rank) == [] && WindowOf(ch.thirtyTwoAw, id.rank) == []
  }

  // What a lane of one command has to say.
  lemma LaneSays(cfg: Config, ch: Channel, c: Command, clk: nat)
    requires c.kind == Write || c.kind == Read
    ensures FirstReady(cfg, ch, [], clk, 0) == Nothing
    ensures Shut(ch, c.Bank(), clk) ==> FirstReady(cfg, ch, [c], clk, 0) == Chosen(Opening(c))
    ensures OpenOn(ch, c.Bank(), c.addr.row) && ch.banks[c.Bank()].times[c.kind] > clk ==> FirstReady(cfg, ch, [c], clk, 0) == Nothing
  {
    assert [c][0] == c;
  }

  // ------------------------------------------------------------ opening a row

  lemma OpenAccepted(ch: Channel, c: Command, clk: nat)
    requires Shut(ch, c.Bank(), clk)
    ensures StateAccepts(ch, Opening(c))
  {
  }

  lemma OpenedBank(p: Params, cfg: Config, b: BankState, c: Command, clk: nat)
    requires Fit(p, cfg) && b.status == Closed && (c.kind == Write || c.kind == Read)
    ensures var b' := ApplyToBank(cfg.tables, b, Opening(c), clk, c.Bank());
            && b'.status == Open && b'.openRow == c.addr.row
            && b'.times[c.kind] == Max(b.times[c.kind], clk + if c.kind == Read then 1 else 2)
  {
    StampIsSpacing(p, Opening(c), c.kind, c.Bank(), clk);
    hide TablesOf, Stamp, ListFor;
  }

  lemma OpenWindows(cfg: Config, ch: Channel, c: Command, other: BankId, clk: nat)
    requires !cfg.gddr && StateAccepts(ch, Opening(c)) && other.rank != c.addr.rank
    ensures var ch' := Apply(cfg, ch, Opening(c), clk);
            WindowOf(ch'.fourAw, other.rank) == WindowOf(ch.fourAw, other.rank) && ch'.thirtyTwoAw == ch.thirtyTwoAw
  {
    hide BumpBanks, StateAccepts, TablesOf;
  }

  lemma Opens(p: Params, cfg: Config, ch: Channel, c: Command, other: BankId, clk: nat)
    requires Fit(p, cfg) && Shut(ch, c.Bank(), clk) && other in ch.banks && other.rank != c.addr.rank && (c.kind == Write || c.kind == Read)
    ensures StateAccepts(ch, Opening(c))
    ensures var ch' := Apply(cfg, ch, Opening(c), clk);
            && ch'.refreshQ == ch.refreshQ && OpenOn(ch', c.Bank(), c.addr.row) && other in ch'.banks
            && ch'.banks[c.Bank()].times[c.kind] == Max(ch.banks[c.Bank()].times[c.kind], clk + if c.kind == Read then 1 else 2)
            && ch'.banks[other] == ch.banks[other]
            && WindowOf(ch'.fourAw, other.rank) == WindowOf(ch.fourAw, other.rank) && ch'.thirtyTwoAw == ch.thirtyTwoAw
  {
    OpenAccepted(ch, c, clk);
    ApplyAt(cfg, ch, Opening(c), clk, c.Bank());
    ApplyAt(cfg, ch, Opening(c), clk, other);
    ApplyQueue(cfg, ch, Opening(c), clk);
    OpenedBank(p, cfg, ch.banks[c.Bank()], c, clk);
    OtherTimes(p, cfg, ch.banks[other], Opening(c), clk, other);
    OpenWindows(cfg, ch, c, other, clk);
    hide Apply, ApplyToBank, StateAccepts, TablesOf;
  }

  lemma NoStamp(p: Params, act: Command, clk: nat, id: BankId, kind: CmdKind)
    requires act.kind == Activate && id.rank != act.addr.rank
    ensures Stamp(ListFor(TablesOf(p), act, id), kind, clk) == 0
  {
    StampIsSpacing(p, act, kind, id, clk);
    hide TablesOf, Stamp, ListFor;
  }

  lemma BumpNothing(times: Times, list: seq<Entry>, clk: nat)
    requires forall k: CmdKind :: Stamp(list, k, clk) == 0
    ensures Bump(times, list, clk) == times
  {
    hide Stamp;
  }

  lemma OtherTimes(p: Params, cfg: Config, b: BankState, act: Command, clk: nat, id: BankId)
    requires Fit(p, cfg) && act.kind == Activate && id.rank != act.addr.rank
    ensures ApplyToBank(cfg.tables, b, act, clk, id) == b
  {
    hide TablesOf, Stamp, ListFor, Bump;
    forall k: CmdKind
      ensures Stamp(ListFor(cfg.tables, act, id), k, clk) == 0
    {
      NoStamp(p, act, clk, id, k);
    }
    BumpNothing(b.times, ListFor(cfg.tables, act, id), clk);
  }

  // ------------------------------------------------------------ the run

  // Between two cycles: the clock, what is queued where, and nothing to refresh.
  ghost predicate Stage(cfg: Config, s: Ctrl, clk: nat, lane0: seq<Command>, lane1: seq<Command>, next: int, waiting: seq<Transaction>) {
    && Sound(cfg, s) && s.clk == clk == s.queues.clk == s.refresh.clk && clk < 100
    && s.queues.lanes == [lane0, lane1] && s.queues.next == next && 0 <= next < 2 && !s.queues.inRef
    && s.unifiedQ == waiting && s.channel.refreshQ == []
  }

  lemma StageHas(p: Params, cfg: Config, s: Ctrl, clk: nat, lane0: seq<Command>, lane1: seq<Command>, next: int, waiting: seq<Transaction>)
    requires Fit(p, cfg) && Stage(cfg, s, clk, lane0, lane1, next, waiting)
    ensures Two(s.queues) && s.queues.lanes[0] == lane0 && s.queues.lanes[1] == lane1 && NoRefresh(cfg, s)
    ensures ConfigOk(cfg) && Sound(cfg, s) && s.channel.refreshQ == [] && !Due(cfg, s.refresh)
  {
    FitOk(p, cfg);
    RunningIf(cfg, s);
    hide Sound, TablesOf;
  }

  // The first cycle finds nothing queued and moves the write to its lane.
  lemma FirstCycle(p: Params, cfg: Config, s: Ctrl, w: Transaction, rest: seq<Transaction>)
    requires Fit(p, cfg) && Stage(cfg, s, 0, [], [], 0, [w] + rest) && TransToCommand(cfg, w) == W
    ensures Stage(cfg, Tick(cfg, s), 1, [W], [], 0, rest) && Tick(cfg, s).channel == s.channel
  {
    hide Sound, ConfigOk, TablesOf, Fetch, Schedule, Fit, Tick, FirstReady;
    StageHas(p, cfg, s, 0, [], [], 0, [w] + rest);
    FitOk(p, cfg);
    LaneSays(cfg, s.channel, W, 0);
    FetchTwo(cfg, s.channel, s.queues);
    TickNothing(cfg, s, s.queues);
    QuietTickSound(cfg, s);
    LaneRoom(p, cfg, s.queues, W, 0);
    ScheduleHead(cfg, Aged(cfg, s).(queues := s.queues), w, rest);
    assert s.queues.lanes[0 := [W]] == [[W], []];
  }

  lemma LaneRoom(p: Params, cfg: Config, q: Queues, c: Command, l: nat)
    requires Fit(p, cfg) && l < |q.lanes| && LaneOf(cfg, c.Bank()) == l && q.lanes[l] == []
    ensures WillAcceptCommand(cfg, q, c.Bank()) && AddCommand(cfg, q, c) == q.(lanes := q.lanes[l := [c]])
  {
    assert q.lanes[l] + [c] == [c];
    hide TablesOf, LaneOf;
  }

  // The second one activates the write's bank and moves the read to its lane.
  lemma SecondCycle(p: Params, cfg: Config, s: Ctrl, r: Transaction)
    requires Fit(p, cfg) && Stage(cfg, s, 1, [W], [], 0, [r]) && TransToCommand(cfg, r) == R
    requires Shut(s.channel, Bank0, 1) && Shut(s.channel, Bank1, 1) && s.channel.banks[Bank0].times[Write] == 0
    ensures var s' := Tick(cfg, s);
            && Stage(cfg, s', 2, [W], [R], 0, []) && OpenOn(s'.channel, Bank0, 0) && s'.channel.banks[Bank0].times[Write] == 3
            && Shut(s'.channel, Bank1, 2) && s'.channel.banks[Bank1] == s.channel.banks[Bank1]
  {
    hide Sound, ConfigOk, TablesOf, Fetch, Schedule, Fit, Tick, FirstReady, Apply, StateAccepts;
    StageHas(p, cfg, s, 1, [W], [], 0, [r]);
    FitOk(p, cfg);
    var q, act := s.queues, Opening(W);
    LaneSays(cfg, s.channel, W, 1);
    FetchTwo(cfg, s.channel, q);
    Opens(p, cfg, s.channel, W, Bank1, 1);
    var ch' := Apply(cfg, s.channel, act, 1);
    LaneSays(cfg, ch', W, 1);
    FetchTwo(cfg, ch', q);
    TickSends(cfg, s, q, act, q);
    QuietTickSound(cfg, s);
    LaneRoom(p, cfg, q, R, 1);
    ScheduleHead(cfg, Sent(cfg, Aged(cfg, s), act).(queues := q), r, []);
  }

  // The third one activates the read's bank; the write has to wait one more cycle.
  lemma ThirdCycle(p: Params, cfg: Config, s: Ctrl)
    requires Fit(p, cfg) && Stage(cfg, s, 2, [W], [R], 0, []) && OpenOn(s.channel, Bank0, 0)
    requires s.channel.banks[Bank0].times[Write] == 3 && Shut(s.channel, Bank1, 2) && s.channel.banks[Bank1].times[Read] == 0
    ensures var s' := Tick(cfg, s);
            && Stage(cfg, s', 3, [W], [R], 1, []) && OpenOn(s'.channel, Bank0, 0) && OpenOn(s'.channel, Bank1, 0)
            && s'.channel.banks[Bank0].times[Write] == 3 && s'.channel.banks[Bank1].times[Read] == 3
  {
    hide Sound, ConfigOk, TablesOf, Fetch, Schedule, Fit, Tick, FirstReady, Apply, StateAccepts;
    StageHas(p, cfg, s, 2, [W], [R], 0, []);
    FitOk(p, cfg);
    var q, q', act := s.queues, s.queues.(next := 1), Opening(R);
    LaneSays(cfg, s.channel, R, 2);
    FetchTwo(cfg, s.channel, q);
    Opens(p, cfg, s.channel, R, Bank0, 2);
    var ch' := Apply(cfg, s.channel, act, 2);
    LaneSays(cfg, ch', W, 2);
    LaneSays(cfg, ch', R, 2);
    FetchTwo(cfg, ch', q');
    TickSends(cfg, s, q', act, q');
    QuietTickSound(cfg, s);
    ScheduleNone(cfg, Sent(cfg, Aged(cfg, s), act).(queues := q'));
  }

  // The fourth one issues the write, fetches the read behind it, and drops it.
  lemma FourthCycle(p: Params, cfg: Config, s: Ctrl)
    requires Fit(p, cfg) && Stage(cfg, s, 3, [W], [R], 1, []) && OpenOn(s.channel, Bank0, 0) && OpenOn(s.channel, Bank1, 0)
    requires s.channel.banks[Bank0].times[Write] == 3 && s.channel.banks[Bank1].times[Read] == 3
    ensures Orphaned(PartsOf(Tick(cfg, s)), KeyOf(R))
  {
    hide Sound, ConfigOk, TablesOf, Fetch, Schedule, Fit, FirstReady, Orphaned, IssueStep, Stamp, ListFor;
    StageHas(p, cfg, s, 3, [W], [R], 1, []);
    FitOk(p, cfg);
    NoGap(p, cfg);
    var s1 := TickRefresh(cfg, s);
    TickRefreshSound(cfg, s);
    PoisedLoses(cfg, s1, W, R);
    IssueKeepsWaiting(cfg, s1);
    RestKeepsParts(cfg, s);
  }

  lemma NoGap(p: Params, cfg: Config)
    requires Fit(p, cfg)
    ensures Stamp(ListFor(cfg.tables, W, Bank1), Read, 3) == 3
  {
    StampIsSpacing(p, W, Read, Bank1, 3);
    hide TablesOf, Stamp, ListFor;
  }

  lemma IssueKeepsWaiting(cfg: Config, s: Ctrl)
    ensures IssueStep(cfg, s).unifiedQ == s.unifiedQ
  {
    var (q, pick) := FirstPick(cfg, s.channel, s.queues);
    if pick.Chosen? {
      OneIssueKeeps(cfg, s.(queues := q), pick.cmd);
      var s2 := Issue(cfg, s.(queues := q), pick.cmd);
      var (q', second) := Fetch(cfg, s2.channel, s2.queues, |s2.queues.lanes|);
      if second.Chosen? {
        OneIssueKeeps(cfg, s2.(queues := q'), second.cmd);
      }
    }
    hide FirstPick, Fetch, Issue;
  }

  lemma OneIssueKeeps(cfg: Config, s: Ctrl, c: Command)
    ensures Issue(cfg, s, c).unifiedQ == s.unifiedQ
  {
    hide Apply, StateAccepts, Answered;
  }

  // Scheduling an empty queue and ending the cycle move nothing.
  lemma RestKeepsParts(cfg: Config, s: Ctrl)
    requires cfg.unified && IssueStep(cfg, TickRefresh(cfg, s)).unifiedQ == []
    ensures PartsOf(Tick(cfg, s)) == PartsOf(IssueStep(cfg, TickRefresh(cfg, s)))
  {
    ScheduleNone(cfg, IssueStep(cfg, TickRefresh(cfg, s)));
    hide IssueStep, TickRefresh, Schedule;
  }

  // ------------------------------------------------------------ from power-up

  const Calls: seq<Op> := [OpAccept(0, true, 7), OpAccept(1, false, 0), OpTick, OpTick, OpTick, OpTick]

  function Upto(cfg: Config, n: nat): Ctrl
    requires n <= 6
  {
    Run(cfg, Init(cfg), Calls[..n])
  }

  lemma UptoNext(cfg: Config, n: nat)
    requires n < 6
    ensures Upto(cfg, 0) == Init(cfg) && Upto(cfg, n + 1) == Step(cfg, Upto(cfg, n), Calls[n])
  {
    assert Calls[..n + 1][..n] == Calls[..n];
    hide Step;
  }

  lemma StepIs(cfg: Config, s: Ctrl, op: Op)
    requires !s.halted
    ensures op == OpTick ==> Step(cfg, s, op) == Tick(cfg, s)
    ensures op.OpAccept? ==> Step(cfg, s, op) == Accept(cfg, s, op.addr, op.isWrite, op.data)
  {
    hide Tick, Accept;
  }

  lemma Fresh(p: Params, cfg: Config)
    requires Fit(p, cfg)
    ensures var s := Init(cfg);
            && Stage(cfg, s, 0, [], [], 0, []) && Shut(s.channel, Bank0, 1) && Shut(s.channel, Bank1, 1) && s.log == []
            && s.pendingRd == map[] && s.pendingWr == map[]
            && s.channel.banks[Bank0].times[Write] == 0 == s.channel.banks[Bank1].times[Read]
  {
    FitOk(p, cfg);
    InitSound(cfg);
    hide Sound, TablesOf;
  }

  lemma AcceptFirst(cfg: Config, s: Ctrl, addr: int, isWrite: bool, data: int)
    requires cfg.unified && addr !in s.pendingRd && addr !in s.pendingWr
    ensures var s', t := Accept(cfg, s, addr, isWrite, data), Transaction(addr, isWrite, |s.log|, data, s.clk, 0);
            && s'.unifiedQ == s.unifiedQ + [t] && |s'.log| == |s.log| + 1 && s'.clk == s.clk && s'.channel == s.channel
            && s'.queues == s.queues && s'.refresh == s.refresh
            && s'.pendingRd.Keys + s'.pendingWr.Keys == s.pendingRd.Keys + s.pendingWr.Keys + {addr}
  {
  }

  lemma TwoAccepted(p: Params, cfg: Config)
    requires Fit(p, cfg)
    ensures var s := Upto(cfg, 2);
            && Stage(cfg, s, 0, [], [], 0, [Transaction(0, true, 0, 7, 0, 0), Transaction(1, false, 1, 0, 0, 0)])
            && s.channel == Init(cfg).channel
  {
    hide Fit, Sound, Step, Accept, Run, TablesOf, ConfigOk;
    Fresh(p, cfg);
    FitOk(p, cfg);
    Steps(cfg);
    var s0, s1 := Upto(cfg, 0), Upto(cfg, 1);
    RunningIf(cfg, s0);
    StepIs(cfg, s0, Calls[0]);
    AcceptFirst(cfg, s0, 0, true, 7);
    AcceptSound(cfg, s0, 0, true, 7);
    RunningIf(cfg, s1);
    StepIs(cfg, s1, Calls[1]);
    AcceptFirst(cfg, s1, 1, false, 0);
    AcceptSound(cfg, s1, 1, false, 0);
  }

  lemma CallsTick(n: nat)
    requires 2 <= n < 6
    ensures Calls[n] == OpTick
  {
  }

  lemma NextTick(cfg: Config, n: nat)
    requires 2 <= n < 6 && Sound(cfg, Upto(cfg, n))
    ensures Upto(cfg, n + 1) == Tick(cfg, Upto(cfg, n))
  {
    UptoNext(cfg, n);
    RunningIf(cfg, Upto(cfg, n));
    StepIs(cfg, Upto(cfg, n), OpTick);
    CallsTick(n);
    hide Sound, Step, Tick, Calls, Run, Init;
  }

  lemma StageSound(cfg: Config, s: Ctrl, clk: nat, lane0: seq<Command>, lane1: seq<Command>, next: int, waiting: seq<Transaction>)
    requires Stage(cfg, s, clk, lane0, lane1, next, waiting)
    ensures Sound(cfg, s)
  {
  }

  // Accept a write and a read of the other rank, and let four cycles pass: the read
  // is then pending and stands in no queue.
  lemma RunLosesRead(p: Params, cfg: Config)
    requires Fit(p, cfg)
    ensures Orphaned(PartsOf(Run(cfg, Init(cfg), Calls)), Key(1, false))
  {
    hide *;
    var w, r := Transaction(0, true, 0, 7, 0, 0), Transaction(1, false, 1, 0, 0, 0);
    Fresh(p, cfg);
    Steps(cfg);
    Commands(p, cfg, w, r);
    TwoAccepted(p, cfg);
    assert [w] + [r] == [w, r];
    StageSound(cfg, Upto(cfg, 2), 0, [], [], 0, [w, r]);
    NextTick(cfg, 2);
    FirstCycle(p, cfg, Upto(cfg, 2), w, [r]);
    StageSound(cfg, Upto(cfg, 3), 1, [W], [], 0, [r]);
    NextTick(cfg, 3);
    SecondCycle(p, cfg, Upto(cfg, 3), r);
    StageSound(cfg, Upto(cfg, 4), 2, [W], [R], 0, []);
    NextTick(cfg, 4);
    ThirdCycle(p, cfg, Upto(cfg, 4));
    StageSound(cfg, Upto(cfg, 5), 3, [W], [R], 1, []);
    NextTick(cfg, 5);
    FourthCycle(p, cfg, Upto(cfg, 5));
  }

  lemma Commands(p: Params, cfg: Config, w: Transaction, r: Transaction)
    requires Fit(p, cfg) && w.addr == 0 && w.isWrite && r.addr == 1 && !r.isWrite
    ensures TransToCommand(cfg, w) == W && TransToCommand(cfg, r) == R && KeyOf(R) == Key(1, false)
  {
    hide TablesOf;
  }

  lemma Steps(cfg: Config)
    ensures Upto(cfg, 0) == Init(cfg) && Upto(cfg, 6) == Run(cfg, Init(cfg), Calls)
    ensures forall n {:trigger Upto(cfg, n)} :: 0 <= n < 6 ==> Upto(cfg, n + 1) == Step(cfg, Upto(cfg, n), Calls[n])
  {
    forall n | 0 <= n < 6
      ensures Upto(cfg, n + 1) == Step(cfg, Upto(cfg, n), Calls[n])
    {
      UptoNext(cfg, n);
    }
    UptoNext(cfg, 0);
    assert Calls[..6] == Calls;
    hide Step;
  }

  // Such a configuration exists.
  lemma SetupLosesRead()
    ensures Orphaned(PartsOf(Run(Setup, Init(Setup), Calls)), Key(1, false))
  {
    SetupFits();
    RunLosesRead(Timings, Setup);
  }
}
