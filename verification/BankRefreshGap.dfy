// The gap after a bank refresh that the refreshed bank itself would need, tRFCb:
// it is listed in a table that is never read for this command, and a run keeps it
// only by the one cycle that any two such commands are apart.
module BankRefreshGap {
  import opened Basics
  import opened DramTypes
  import opened Banks
  import opened ChannelSpec
  import opened CommandHistory
  import opened QueueSpec
  import opened RefreshSpec
  import opened ControllerSpec
  import opened ControllerSafety
  import opened TimingTables
  import opened TimingFacts
  import opened DualIssueLoss
  import opened ControllerSteps

  // ------------------------------------------------------- one such command a cycle

  predicate Singles(h: seq<Issued>) {
    forall i, j :: 0 <= i < j < |h| && !h[i].cmd.IsReadWrite() && !h[j].cmd.IsReadWrite() ==> h[i].clk < h[j].clk
  }

  predicate Past(h: seq<Issued>, clk: nat) { forall i :: 0 <= i < |h| ==> h[i].clk < clk }

  ghost predicate Orderly(s: Ctrl) { Singles(s.issued) && (!s.halted ==> Past(s.issued, s.clk)) }

  // What one step of a cycle adds to the history.
  predicate Adds(s: Ctrl, s': Ctrl, tail: seq<Issued>) {
    && s'.issued == s.issued + tail && s'.clk == s.clk && forall i :: 0 <= i < |tail| ==> tail[i].clk == s.clk
  }

  lemma DataKeepsHistory(cfg: Config, s: Ctrl, c: Command)
    ensures IssueData(cfg, s, c).issued == s.issued && IssueData(cfg, s, c).clk == s.clk
  {
    hide Answered;
  }

  lemma IssueAdds(cfg: Config, s: Ctrl, c: Command) returns (tail: seq<Issued>)
    ensures Adds(s, Issue(cfg, s, c), tail) && (tail == [] || tail == [Issued(c, s.clk)])
  {
    hide Apply, StateAccepts, IssueData;
    DataKeepsHistory(cfg, s, c);
    tail := if Issue(cfg, s, c).issued == s.issued then [] else [Issued(c, s.clk)];
  }

  // At most one of the two commands of a cycle is not a column command.
  lemma SecondAdds(cfg: Config, s: Ctrl, first: Command) returns (tail: seq<Issued>)
    ensures Adds(s, SecondCommand(cfg, s, first), tail)
    ensures |tail| <= 1 && (tail != [] ==> tail[0].cmd.IsReadWrite() != first.IsReadWrite())
  {
    hide Issue, Fetch;
    var (q, pick) := Fetch(cfg, s.channel, s.queues, |s.queues.lanes|);
    tail := [];
    if pick.Chosen? && pick.cmd.IsReadWrite() != first.IsReadWrite() {
      tail := IssueAdds(cfg, s.(queues := q), pick.cmd);
    }
  }

  lemma IssueStepAdds(cfg: Config, s: Ctrl) returns (tail: seq<Issued>)
    ensures Adds(s, IssueStep(cfg, s), tail)
    ensures |tail| <= 2 && (|tail| == 2 ==> tail[0].cmd.IsReadWrite() != tail[1].cmd.IsReadWrite())
  {
    hide Issue, FirstPick, SecondCommand;
    var (q, pick) := FirstPick(cfg, s.channel, s.queues);
    tail := [];
    if pick.Chosen? {
      tail := IssueAdds(cfg, s.(queues := q), pick.cmd);
      var s1 := Issue(cfg, s.(queues := q), pick.cmd);
      if !s1.halted && cfg.dualCommand {
        var more := SecondAdds(cfg, s1, pick.cmd);
        tail := tail + more;
      }
    }
  }

  lemma ScheduleKeepsHistory(cfg: Config, s: Ctrl)
    ensures var s' := Schedule(cfg, s); s'.issued == s.issued && s'.clk == s.clk && s'.halted == s.halted
  {
    hide AddCommand, WillAcceptCommand, Draining;
  }

  lemma TickOrderly(cfg: Config, s: Ctrl)
    requires Orderly(s) && !s.halted
    ensures Orderly(Tick(cfg, s))
  {
    hide IssueStep, Schedule;
    var s1 := TickRefresh(cfg, s);
    var tail := IssueStepAdds(cfg, s1);
    var s2 := IssueStep(cfg, s1);
    ScheduleKeepsHistory(cfg, s2);
    assert Singles(s2.issued);
  }

  lemma StepOrderly(cfg: Config, s: Ctrl, op: Op)
    requires Orderly(s)
    ensures Orderly(Step(cfg, s, op))
  {
    hide Tick;
    if !s.halted && op == OpTick {
      TickOrderly(cfg, s);
    }
  }

  lemma {:induction false} RunOrderly(cfg: Config, ops: seq<Op>)
    ensures Orderly(Run(cfg, Init(cfg), ops))
  {
    if ops != [] {
      RunOrderly(cfg, ops[..|ops| - 1]);
      StepOrderly(cfg, Run(cfg, Init(cfg), ops[..|ops| - 1]), ops[|ops| - 1]);
    }
  }

  // ------------------------------------------------------------ the gap in question

  predicate AfterRefresh(ref: Issued, act: Issued) {
    ref.cmd.kind == RefreshBank && act.cmd.kind == Activate && ref.cmd.Bank() == act.cmd.Bank()
  }

  predicate KeepsGap(h: seq<Issued>, gap: nat) {
    forall i, j :: 0 <= i < j < |h| && AfterRefresh(h[i], h[j]) ==> h[i].clk + gap <= h[j].clk
  }

  ghost predicate EveryRunKeeps(cfg: Config, gap: nat) { forall ops :: KeepsGap(Run(cfg, Init(cfg), ops).issued, gap) }

  lemma OneCycleKept(cfg: Config, gap: nat)
    requires gap <= 1
    ensures EveryRunKeeps(cfg, gap)
  {
    hide Run, Init;
    forall ops
      ensures KeepsGap(Run(cfg, Init(cfg), ops).issued, gap)
    {
      RunOrderly(cfg, ops);
    }
  }

  // ------------------------------------------------------------ a controller at rest

  predicate LanesBare(cfg: Config, q: Queues) {
    && |q.lanes| == NumLanes(cfg) && 0 <= q.next < |q.lanes| && !q.inRef && q.refLanes == {}
    && forall l :: 0 <= l < |q.lanes| ==> q.lanes[l] == []
  }

  lemma {:induction false} FetchBare(cfg: Config, ch: Channel, q: Queues, n: nat)
    requires LanesBare(cfg, q)
    ensures var (q', pick) := Fetch(cfg, ch, q, n); pick == Nothing && LanesBare(cfg, q') && q' == q.(next := q'.next)
    decreases n
  {
    if n > 0 {
      FetchBare(cfg, ch, NextLane(q), n - 1);
    }
  }

  // Nothing accepted, nothing issued, at clock n.
  predicate Resting(cfg: Config, s: Ctrl, n: nat) {
    && !s.halted && s.clk == n == s.queues.clk && s.channel == Init(cfg).channel && LanesBare(cfg, s.queues)
    && s.refresh == Generator(n, 0, 0, 0) && NoneWaiting(s) && s.pendingRd == map[] && s.pendingWr == map[]
    && s.writeDraining == 0 && s.issued == []
  }

  lemma ScheduleBare(cfg: Config, s: Ctrl)
    requires NoneWaiting(s) && s.writeDraining == 0
    ensures Schedule(cfg, s) == s
  {
  }

  lemma RestingTick(cfg: Config, s: Ctrl, n: nat)
    requires Resting(cfg, s, n) && n < cfg.refreshInterval
    ensures Resting(cfg, Tick(cfg, s), n + 1)
  {
    NotYetDue(n, cfg.refreshInterval);
    FetchBare(cfg, s.channel, s.queues, |s.queues.lanes|);
    var q := Fetch(cfg, s.channel, s.queues, |s.queues.lanes|).0;
    TickNothing(cfg, s, q);
    ScheduleBare(cfg, Aged(cfg, s).(queues := q));
    hide Fetch, Tick, Schedule, NumLanes, FreshBanks, NoWindows;
  }

  lemma NotYetDue(n: nat, interval: nat)
    requires n < interval
    ensures n % interval == n
  {
  }

  function Idle(n: nat): seq<Op> { seq(n, _ => OpTick) }

  lemma SomeLane(cfg: Config)
    requires ConfigOk(cfg)
    ensures 0 < NumLanes(cfg)
  {
    InBounds(cfg, BankId(0, 0, 0));
  }

  lemma StartResting(cfg: Config)
    requires ConfigOk(cfg)
    ensures Resting(cfg, Init(cfg), 0)
  {
    SomeLane(cfg);
    hide NumLanes, FreshBanks, NoWindows;
  }

  lemma {:induction false} RestingRun(cfg: Config, n: nat)
    requires ConfigOk(cfg) && n <= cfg.refreshInterval
    ensures Resting(cfg, Run(cfg, Init(cfg), Idle(n)), n)
  {
    hide Resting, Tick;
    if n == 0 {
      StartResting(cfg);
    } else {
      RestingRun(cfg, n - 1);
      assert Idle(n)[..n - 1] == Idle(n - 1);
      RestingTick(cfg, Run(cfg, Init(cfg), Idle(n - 1)), n - 1);
      RestingRuns(cfg, Run(cfg, Init(cfg), Idle(n - 1)), n - 1);
    }
  }

  lemma RestingRuns(cfg: Config, s: Ctrl, n: nat)
    requires Resting(cfg, s, n)
    ensures !s.halted
  {
  }

  // ------------------------------------------------------------ refresh, then activate

  // Per-bank refresh with requests at least two cycles apart, and an address in the
  // bank that is refreshed first.
  ghost predicate Exposed(cfg: Config, a: int) {
    && ConfigOk(cfg) && cfg.policy == BankStaggered && cfg.refreshInterval >= 2 && cfg.queueSize >= 1
    && Activating(cfg, a).Bank() == First
  }

  const First: BankId := BankId(0, 0, 0)

  const Request: Command := BankRequest(0, 0, 0)

  // A read has just been accepted when the first request is due.
  ghost predicate Waiting(cfg: Config, s: Ctrl, a: int, t: Transaction) {
    && !s.halted && s.clk == cfg.refreshInterval == s.queues.clk && s.channel == Init(cfg).channel && LanesBare(cfg, s.queues)
    && s.refresh == Generator(cfg.refreshInterval, 0, 0, 0) && s.writeDraining == 0 && s.issued == []
    && t.addr == a && !t.isWrite && s.pendingRd.Keys == {a} && s.pendingWr == map[]
    && s.unifiedQ == (if cfg.unified then [t] else []) && s.readQ == (if cfg.unified then [] else [t]) && s.writeBuf == []
  }

  lemma ReadAccepted(cfg: Config, s: Ctrl, a: int)
    requires Resting(cfg, s, cfg.refreshInterval)
    ensures Waiting(cfg, Accept(cfg, s, a, false, 0), a, Transaction(a, false, |s.log|, 0, s.clk, 0))
  {
    hide NumLanes, FreshBanks, NoWindows;
  }

  lemma DueNow(cfg: Config, g: Generator)
    requires g.clk == cfg.refreshInterval > 0
    ensures Due(cfg, g)
  {
  }

  lemma NotDueNext(cfg: Config, g: Generator)
    requires g.clk == cfg.refreshInterval + 1 && cfg.refreshInterval >= 2
    ensures !Due(cfg, g)
  {
    var n := cfg.refreshInterval;
    assert (n + 1) % n == 1 by {
      NotYetDue(1, n);
      assert n + 1 == 1 * n + 1;
    }
  }

  lemma FreshFirst(cfg: Config)
    requires ConfigOk(cfg)
    ensures var ch := Init(cfg).channel;
            && First in ch.banks && ch.banks[First] == Fresh && ch.refreshQ == [] && ch.selfRefreshing == {}
            && FewActivates(ch, 0)
  {
  }

  // The request is made and, the bank being closed, granted at once.
  lemma RequestGranted(cfg: Config, s: Ctrl, a: int, t: Transaction)
    requires Exposed(cfg, a) && Waiting(cfg, s, a, t)
    ensures var s1 := TickRefresh(cfg, s);
            && s1.channel == s.channel.(refreshQ := [Request]) && s1.refresh.clk == cfg.refreshInterval + 1
            && s1 == s.(channel := s1.channel, refresh := s1.refresh)
            && FirstPick(cfg, s1.channel, s1.queues) == (s1.queues, Chosen(Request)) && StateAccepts(s1.channel, Request)
  {
    FreshFirst(cfg);
    DueNow(cfg, s.refresh);
    var s1 := TickRefresh(cfg, s);
    assert s1.channel.refreshQ == [Request];
    assert Request.Bank() == First;
    assert ReplyOf(s1.channel, First, Request, s.clk) == Ready(Request);
    assert Fence(cfg, Request, s.queues).(inRef := false, refLanes := {}) == s.queues;
    hide FreshBanks, NoWindows, NumLanes, RefLanes;
  }

  // The read moves to its lane, whichever queue it stands in.
  lemma ScheduleRead(cfg: Config, s: Ctrl, t: Transaction)
    requires !t.isWrite && s.unifiedQ == (if cfg.unified then [t] else []) && s.readQ == (if cfg.unified then [] else [t])
    requires s.writeBuf == [] && s.writeDraining == 0 && WillAcceptCommand(cfg, s.queues, TransToCommand(cfg, t).Bank())
    ensures Schedule(cfg, s) == s.(unifiedQ := [], readQ := [], queues := AddCommand(cfg, s.queues, TransToCommand(cfg, t)))
  {
    hide AddCommand, WillAcceptCommand;
  }

  lemma BareAdd(cfg: Config, q: Queues, c: Command)
    requires LanesBare(cfg, q) && 0 <= LaneOf(cfg, c.Bank()) < NumLanes(cfg) && cfg.queueSize >= 1
    ensures var l, q' := LaneOf(cfg, c.Bank()), AddCommand(cfg, q, c);
            && WillAcceptCommand(cfg, q, c.Bank()) && OnlyLane(q', l) && q'.lanes[l] == [c] && q'.clk == q.clk
  {
    hide LaneOf, NumLanes;
  }

  function Granted(cfg: Config, s: Ctrl): Ctrl
    requires StateAccepts(TickRefresh(cfg, s).channel, Request)
  {
    Sent(cfg, TickRefresh(cfg, s), Request)
  }

  lemma GrantedStep(cfg: Config, s: Ctrl, a: int, t: Transaction) returns (q: Queues)
    requires Exposed(cfg, a) && Waiting(cfg, s, a, t)
    ensures StateAccepts(TickRefresh(cfg, s).channel, Request) && LanesBare(cfg, q) && q.clk == s.clk
    ensures IssueStep(cfg, TickRefresh(cfg, s)) == Granted(cfg, s).(queues := q)
  {
    hide Exposed, FirstPick, Fetch, Apply, StateAccepts, Issue, TickRefresh;
    RequestGranted(cfg, s, a, t);
    var s1 := TickRefresh(cfg, s);
    IssueSends(cfg, s1, Request);
    var s2 := Sent(cfg, s1, Request);
    FetchBare(cfg, s2.channel, s2.queues, |s2.queues.lanes|);
    q := if cfg.dualCommand then Fetch(cfg, s2.channel, s2.queues, |s2.queues.lanes|).0 else s1.queues;
    assert s1.(queues := s1.queues) == s1;
  }

  // After the cycle of the refresh: the read is queued and its bank may be activated.
  ghost predicate Activatable(cfg: Config, s: Ctrl, a: int) {
    var c := QueuedFor(cfg, a, false);
    && !s.halted && s.clk == cfg.refreshInterval + 1 == s.queues.clk == s.refresh.clk && s.channel.refreshQ == []
    && s.issued == [Issued(Request, cfg.refreshInterval)]
    && 0 <= LaneOf(cfg, First) && OnlyLane(s.queues, LaneOf(cfg, First)) && s.queues.lanes[LaneOf(cfg, First)] == [c]
    && First in s.channel.banks && s.channel.banks[First].status == Closed && s.channel.banks[First].times[Activate] <= s.clk
    && FewActivates(s.channel, 0)
  }

  lemma RefreshedTimes(p: Params, clk: nat)
    ensures Request.Bank() == First && Fresh.UpdateState(Request).Some?
    ensures var b' := ApplyToBank(TablesOf(p), Fresh, Request, clk, First); b'.status == Closed && b'.times[Activate] == 0
  {
    StampIsSpacing(p, Request, Activate, First, clk);
    hide TablesOf, Stamp, ListFor;
  }

  lemma Unwindowed(ch: Channel, ch': Channel)
    requires FewActivates(ch, 0) && ch'.fourAw == ch.fourAw && ch'.thirtyTwoAw == ch.thirtyTwoAw
    ensures FewActivates(ch', 0)
  {
  }

  lemma RequestRetired()
    ensures Retire([Request], Request) == [] && Request.IsRefresh()
  {
  }

  lemma RefreshedBank(p: Params, cfg: Config, ch: Channel, clk: nat)
    requires ConfigOk(cfg) && cfg.tables == TablesOf(p) && ch == Init(cfg).channel.(refreshQ := [Request]) && StateAccepts(ch, Request)
    ensures var ch' := Apply(cfg, ch, Request, clk);
            && ch'.refreshQ == [] && First in ch'.banks && ch'.banks[First].status == Closed
            && ch'.banks[First].times[Activate] == 0 && FewActivates(ch', 0)
  {
    hide *;
    FreshFirst(cfg);
    RefreshedTimes(p, clk);
    RequestRetired();
    ApplyAt(cfg, ch, Request, clk, First);
    ApplyQueue(cfg, ch, Request, clk);
    NotActivate();
    NoWindowPushed(cfg, ch, Request, clk);
    Unwindowed(Init(cfg).channel, ch);
    Unwindowed(ch, Apply(cfg, ch, Request, clk));
  }

  lemma NotActivate()
    ensures Request.kind != Activate
  {
  }

  lemma NoWindowPushed(cfg: Config, ch: Channel, c: Command, clk: nat)
    requires StateAccepts(ch, c) && c.kind != Activate
    ensures var ch' := Apply(cfg, ch, c, clk); ch'.fourAw == ch.fourAw && ch'.thirtyTwoAw == ch.thirtyTwoAw
  {
    hide BumpBanks, StateAccepts;
  }

  lemma RefreshCycle(p: Params, cfg: Config, s: Ctrl, a: int, t: Transaction)
    requires Exposed(cfg, a) && cfg.tables == TablesOf(p) && Waiting(cfg, s, a, t)
    ensures Activatable(cfg, Tick(cfg, s), a)
  {
    hide FirstPick, Fetch, Apply, StateAccepts, Issue, IssueStep, TablesOf, LaneOf, NumLanes, AddCommand, FewActivates, LanesBare, OnlyLane;
    RequestGranted(cfg, s, a, t);
    var q := GrantedStep(cfg, s, a, t);
    var s2 := Granted(cfg, s).(queues := q);
    var c := QueuedFor(cfg, a, false);
    assert c == TransToCommand(cfg, t) && c.Bank() == First;
    InBounds(cfg, First);
    BareAdd(cfg, q, c);
    ScheduleRead(cfg, s2, t);
    RefreshedBank(p, cfg, TickRefresh(cfg, s).channel, s.clk);
    OnlyClock(q, c, cfg);
  }

  lemma OnlyClock(q: Queues, c: Command, cfg: Config)
    ensures var q' := AddCommand(cfg, q, c); forall l: nat :: OnlyLane(q', l) ==> OnlyLane(q'.(clk := q'.clk + 1), l)
  {
  }

  // The next cycle activates the bank.
  lemma ActivateCycle(cfg: Config, s: Ctrl, a: int)
    requires Exposed(cfg, a) && Activatable(cfg, s, a)
    ensures [Issued(Request, cfg.refreshInterval), Issued(Activating(cfg, a), cfg.refreshInterval + 1)] <= Tick(cfg, s).issued
  {
    hide Fetch, Schedule, LaneOf, OnlyLane, ConfigOk, FewActivates, StateAccepts, Apply;
    var l, act, c := LaneOf(cfg, First), Activating(cfg, a), QueuedFor(cfg, a, false);
    NotDueNext(cfg, s.refresh);
    ActivateIssuable(cfg, s, a, 0);
    AsksActivate(cfg, s.channel, a, s.clk);
    LaneInQueue(s.queues, l);
    FetchReaches(cfg, s.channel, s.queues, |s.queues.lanes|, l, act);
    FirstOut(cfg, s, act);
  }

  lemma AsksActivate(cfg: Config, ch: Channel, a: int, clk: nat)
    requires var id := Activating(cfg, a).Bank();
             id in ch.banks && ch.banks[id].status == Closed && ch.banks[id].times[Activate] <= clk
    requires FewActivates(ch, 0)
    ensures FirstReady(cfg, ch, [QueuedFor(cfg, a, false)], clk, 0) == Chosen(Activating(cfg, a))
  {
    FewIsOk(cfg, ch, 0, Activating(cfg, a).addr.rank, clk);
    hide FewActivates, ActivationWindowOk;
  }

  lemma FirstOut(cfg: Config, s: Ctrl, c: Command)
    requires NoRefresh(cfg, s) && Fetch(cfg, s.channel, s.queues, |s.queues.lanes|).1 == Chosen(c)
    requires !c.IsReadWrite() && StateAccepts(s.channel, c)
    ensures s.issued + [Issued(c, s.clk)] <= Tick(cfg, s).issued
  {
    hide Fetch, Schedule, Apply, StateAccepts, Issue, SecondCommand;
    var q := Fetch(cfg, s.channel, s.queues, |s.queues.lanes|).0;
    var s1 := Aged(cfg, s).(queues := q);
    IssueSends(cfg, s1, c);
    var tail := SecondAdds(cfg, Sent(cfg, s1, c), c);
    ScheduleKeepsHistory(cfg, IssueStep(cfg, TickRefresh(cfg, s)));
  }

  // From power-up: wait for the first request, accept a read of its bank, and let two
  // cycles pass.
  function Exposing(cfg: Config, a: int): seq<Op> { Idle(cfg.refreshInterval) + [OpAccept(a, false, 0), OpTick, OpTick] }

  lemma RunExposes(p: Params, cfg: Config, a: int)
    requires Exposed(cfg, a) && cfg.tables == TablesOf(p)
    ensures [Issued(Request, cfg.refreshInterval), Issued(Activating(cfg, a), cfg.refreshInterval + 1)]
         <= Run(cfg, Init(cfg), Exposing(cfg, a)).issued
  {
    hide Tick, Accept, Resting, Waiting, Activatable, Init, TablesOf, ConfigOk;
    var n := cfg.refreshInterval;
    RestingRun(cfg, n);
    var s0 := Run(cfg, Init(cfg), Idle(n));
    RestingRuns(cfg, s0, n);
    var t := Transaction(a, false, |s0.log|, 0, s0.clk, 0);
    ReadAccepted(cfg, s0, a);
    var s1 := Accept(cfg, s0, a, false, 0);
    RefreshCycle(p, cfg, s1, a, t);
    ActivateCycle(cfg, Tick(cfg, s1), a);
    NotHalted(cfg, s1, Tick(cfg, s1), a, t);
    var accepted := Idle(n) + [OpAccept(a, false, 0)];
    RunOneMore(cfg, Idle(n), OpAccept(a, false, 0));
    RunOneMore(cfg, accepted, OpTick);
    RunOneMore(cfg, accepted + [OpTick], OpTick);
    assert Exposing(cfg, a) == accepted + [OpTick] + [OpTick];
    hide Run, Idle;
  }

  lemma RunOneMore(cfg: Config, ops: seq<Op>, op: Op)
    ensures Run(cfg, Init(cfg), ops + [op]) == Step(cfg, Run(cfg, Init(cfg), ops), op)
  {
    assert (ops + [op])[..|ops|] == ops;
    hide Step;
  }

  lemma NotHalted(cfg: Config, s1: Ctrl, s2: Ctrl, a: int, t: Transaction)
    requires Waiting(cfg, s1, a, t) && Activatable(cfg, s2, a)
    ensures !s1.halted && !s2.halted
  {
  }

  // Under per-bank refresh, with requests at least two cycles apart and an address in
  // the first bank: every run keeps the gap tRFCb between a bank refresh and an
  // activate of the refreshed bank exactly when it is no more than one cycle.
  lemma BankRefreshGapIff(p: Params, cfg: Config, a: int)
    requires Exposed(cfg, a) && cfg.tables == TablesOf(p)
    ensures EveryRunKeeps(cfg, p.tRFCb) <==> p.tRFCb <= 1
  {
    if p.tRFCb <= 1 {
      OneCycleKept(cfg, p.tRFCb);
    } else {
      RunExposes(p, cfg, a);
      var h := Run(cfg, Init(cfg), Exposing(cfg, a)).issued;
      assert h[0] == Issued(Request, cfg.refreshInterval) && h[1] == Issued(Activating(cfg, a), cfg.refreshInterval + 1);
      assert AfterRefresh(h[0], h[1]);
      assert !KeepsGap(h, p.tRFCb);
    }
    hide Run, Init, Exposing, TablesOf, ConfigOk;
  }
}
