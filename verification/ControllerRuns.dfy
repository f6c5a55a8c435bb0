// Every run of the controller: the hardware rules, the exactly-once service and
// the plain-memory view hold together after any sequence of calls.
module ControllerRuns {
  import opened Basics
  import opened DramTypes
  import opened Banks
  import opened ChannelSpec
  import opened CommandHistory
  import opened QueueSpec
  import opened RefreshSpec
  import opened ControllerSpec
  import opened QueueSafety
  import opened ControllerSafety
  import opened Census
  import opened Servicing
  import opened PlainMemory

  // After a column command every other column command has to wait at least one
  // cycle, on every bank that the first one leaves usable.
  predicate HasGap(list: seq<Entry>, kind: CmdKind) {
    exists n :: 0 <= n < |list| && list[n].0 == kind && list[n].1 >= 1
  }

  ghost predicate ColumnGapsPositive(cfg: Config) {
    forall first: Command, id: BankId, isWrite: bool {:trigger ListFor(cfg.tables, first, id), KindFor(cfg, isWrite)} ::
      first.kind == KindFor(cfg, first.IsWrite()) && cfg.ValidBank(first.Bank()) && cfg.ValidBank(id)
      && (cfg.closePage ==> id != first.Bank()) ==>
        HasGap(ListFor(cfg.tables, first, id), KindFor(cfg, isWrite))
  }

  ghost predicate RunsOk(cfg: Config) {
    ConfigOk(cfg) && (cfg.dualCommand ==> ColumnGapsPositive(cfg))
  }

  ghost predicate Sound(cfg: Config, s: Ctrl) {
    && Safe(cfg, s)
    && Queued(cfg, PartsOf(s))
    && Faithful(BooksOf(s))
  }

  // ------------------------------------------------------------------ issuing

  // A command that is not a column command touches neither books nor queues.
  lemma IssueOther(cfg: Config, s: Ctrl, c: Command)
    requires ConfigOk(cfg) && Sound(cfg, s) && Issuable(cfg, s, c) && !c.IsReadWrite()
    ensures Sound(cfg, Issue(cfg, s, c))
  {
    IssueChannelSafe(cfg, s, c);
    IssueChannelFields(cfg, s, c);
  }

  predicate SameHardware(s: Ctrl, s': Ctrl) {
    && s'.clk == s.clk && s'.channel == s.channel && s'.queues == s.queues && s'.refresh == s.refresh
    && s'.issued == s.issued && s'.halted == s.halted
  }

  lemma SafetyTransfers(cfg: Config, s: Ctrl, s': Ctrl, c: Command)
    requires Safe(cfg, s) && SameHardware(s, s')
    ensures Safe(cfg, s')
    ensures Issuable(cfg, s, c) ==> Issuable(cfg, s', c)
  {
  }

  lemma IssueDataHardware(cfg: Config, s: Ctrl, c: Command)
    requires !IssueData(cfg, s, c).halted
    ensures SameHardware(s, IssueData(cfg, s, c))
  {
  }

  lemma TakenParts(cfg: Config, s: Ctrl, q: Queues, c: Command, l: nat, i: nat)
    requires Queued(cfg, PartsOf(s)) && c.IsReadWrite()
    requires ChosenFrom(cfg, s.channel, s.queues, q, c, l, i)
    ensures var p := PartsOf(s.(queues := q));
            CountedWith(p, multiset{KeyOf(c)}) && Ordered(p) && Sorted(cfg, p)
  {
    TakenCounted(PartsOf(s), l, i);
    TakenOrdered(PartsOf(s), l, i);
  }

  lemma IssueDataQueued(cfg: Config, s: Ctrl, c: Command)
    requires c.IsReadWrite() && !s.halted
    requires CountedWith(PartsOf(s), multiset{KeyOf(c)}) && Ordered(PartsOf(s)) && Sorted(cfg, PartsOf(s))
    ensures !IssueData(cfg, s, c).halted && Queued(cfg, PartsOf(IssueData(cfg, s, c)))
  {
    IssuedCounted(PartsOf(s), c);
    IssuedOrdered(PartsOf(s), c);
    IssueDataFields(cfg, s, c);
  }

  lemma IssueChannelSound(cfg: Config, s: Ctrl, c: Command)
    requires ConfigOk(cfg) && Sound(cfg, s) && Issuable(cfg, s, c)
    ensures Sound(cfg, IssueChannel(cfg, s, c))
  {
    IssueChannelSafe(cfg, s, c);
    IssueChannelFields(cfg, s, c);
    assert BooksOf(IssueChannel(cfg, s, c)) == BooksOf(s);
  }

  // The column command just taken off its queue is pending, and issuing it
  // keeps everything.
  lemma IssueColumn(cfg: Config, s: Ctrl, q: Queues, c: Command, l: nat, i: nat)
    requires ConfigOk(cfg) && Sound(cfg, s) && c.IsReadWrite()
    requires ChosenFrom(cfg, s.channel, s.queues, q, c, l, i)
    requires Safe(cfg, s.(queues := q)) && Issuable(cfg, s.(queues := q), c)
    ensures Sound(cfg, Issue(cfg, s.(queues := q), c))
  {
    var s1 := s.(queues := q);
    TakenParts(cfg, s, q, c, l, i);
    IssueDataQueued(cfg, s1, c);
    if c.IsWrite() {
      NoReaderLeft(cfg, PartsOf(s), l, i);
    }
    assert BooksOf(s1) == BooksOf(s);
    IssueFaithful(cfg, s1, c);
    var s2 := IssueData(cfg, s1, c);
    IssueDataHardware(cfg, s1, c);
    SafetyTransfers(cfg, s1, s2, c);
    IssueChannelSound(cfg, s2, c);
  }

  lemma IssueFetched(cfg: Config, s: Ctrl, q: Queues, c: Command, l: nat, i: nat)
    requires ConfigOk(cfg) && Sound(cfg, s)
    requires ChosenFrom(cfg, s.channel, s.queues, q, c, l, i)
    requires Safe(cfg, s.(queues := q)) && Issuable(cfg, s.(queues := q), c)
    ensures Sound(cfg, Issue(cfg, s.(queues := q), c))
  {
    if c.IsReadWrite() {
      IssueColumn(cfg, s, q, c, l, i);
    } else {
      assert PartsOf(s.(queues := q)) == PartsOf(s) && BooksOf(s.(queues := q)) == BooksOf(s);
      IssueOther(cfg, s.(queues := q), c);
    }
  }

  // ------------------------------------------------- dual command issue (HBM)

  // No bank takes another column command in this cycle.
  ghost predicate ColumnsBlocked(cfg: Config, ch: Channel, clk: nat) {
    forall id, isWrite {:trigger ch.banks[id], KindFor(cfg, isWrite)} :: id in ch.banks ==>
      ch.banks[id].status != Open || ch.banks[id].times[KindFor(cfg, isWrite)] > clk
  }

  lemma GapBlocks(cfg: Config, b: BankState, first: Command, clk: nat, id: BankId, kind: CmdKind)
    requires Reaches(first, id) ==> b.UpdateState(first).Some?
    requires HasGap(ListFor(cfg.tables, first, id), kind)
    ensures ApplyToBank(cfg.tables, b, first, clk, id).times[kind] > clk
  {
    var list := ListFor(cfg.tables, first, id);
    var n :| 0 <= n < |list| && list[n].0 == kind && list[n].1 >= 1;
    StampBound(list, n, clk);
  }

  lemma BankBlocked(cfg: Config, b: BankState, first: Command, clk: nat, id: BankId, isWrite: bool)
    requires ColumnGapsPositive(cfg) && cfg.ValidBank(id)
    requires Reaches(first, id) ==> b.UpdateState(first).Some?
    requires first.kind == KindFor(cfg, first.IsWrite()) && cfg.ValidBank(first.Bank())
    ensures var b' := ApplyToBank(cfg.tables, b, first, clk, id);
            b'.status != Open || b'.times[KindFor(cfg, isWrite)] > clk
  {
    if !(cfg.closePage && id == first.Bank()) {
      assert HasGap(ListFor(cfg.tables, first, id), KindFor(cfg, isWrite));
      GapBlocks(cfg, b, first, clk, id, KindFor(cfg, isWrite));
    }
  }

  lemma ColumnBlocks(cfg: Config, ch: Channel, first: Command, clk: nat)
    requires ColumnGapsPositive(cfg) && Shaped(cfg, ch) && StateAccepts(ch, first)
    requires first.kind == KindFor(cfg, first.IsWrite()) && cfg.ValidBank(first.Bank())
    ensures ColumnsBlocked(cfg, Apply(cfg, ch, first, clk), clk)
  {
    ApplyKeys(cfg, ch, first, clk);
    var banks' := Apply(cfg, ch, first, clk).banks;
    forall id, isWrite | id in banks'
      ensures banks'[id].status != Open || banks'[id].times[KindFor(cfg, isWrite)] > clk
    {
      ApplyAt(cfg, ch, first, clk, id);
      BankBlocked(cfg, ch.banks[id], first, clk, id, isWrite);
    }
  }

  // A column command that is fetched meets its bank open and its time passed.
  lemma FetchedColumn(cfg: Config, s: Ctrl, q: Queues, c: Command, l: nat, i: nat)
    requires Safe(cfg, s) && c.IsReadWrite()
    requires ChosenFrom(cfg, s.channel, s.queues, q, c, l, i)
    ensures c.kind == KindFor(cfg, c.IsWrite()) && c.Bank() in s.channel.banks
    ensures s.channel.banks[c.Bank()].status == Open
    ensures s.channel.banks[c.Bank()].times[KindFor(cfg, c.IsWrite())] <= s.clk
  {
    assert LaneOk(cfg, s.queues.lanes[l], l);
    assert Placed(cfg, c, l);
    assert Fits(s.channel.banks[c.Bank()], c, s.clk);
  }

  // So the destructive fetch of the second command takes no column command off
  // its queue after a first one.
  lemma NoSecondColumn(cfg: Config, s: Ctrl, q: Queues, c: Command, l: nat, i: nat)
    requires Safe(cfg, s) && ColumnsBlocked(cfg, s.channel, s.clk)
    requires ChosenFrom(cfg, s.channel, s.queues, q, c, l, i)
    ensures !c.IsReadWrite()
  {
    if c.IsReadWrite() {
      FetchedColumn(cfg, s, q, c, l, i);
    }
  }

  lemma RequeueSound(cfg: Config, s: Ctrl, q: Queues)
    requires Sound(cfg, s) && Safe(cfg, s.(queues := q)) && q.lanes == s.queues.lanes
    ensures Sound(cfg, s.(queues := q))
  {
    assert PartsOf(s.(queues := q)) == PartsOf(s);
    assert BooksOf(s.(queues := q)) == BooksOf(s);
  }

  lemma SecondSound(cfg: Config, s: Ctrl, first: Command)
    requires ConfigOk(cfg) && Sound(cfg, s)
    requires first.IsReadWrite() ==> ColumnsBlocked(cfg, s.channel, s.clk)
    ensures Sound(cfg, SecondCommand(cfg, s, first))
  {
    var l, i := FetchSafe(cfg, s);
    var (q, pick) := Fetch(cfg, s.channel, s.queues, |s.queues.lanes|);
    if pick.Nothing? {
      RequeueSound(cfg, s, q);
    } else if pick.cmd.IsReadWrite() != first.IsReadWrite() {
      IssueFetched(cfg, s, q, pick.cmd, l, i);
    } else {
      if first.IsReadWrite() {
        NoSecondColumn(cfg, s, q, pick.cmd, l, i);
      }
      RequeueSound(cfg, s, q);
    }
  }

  // The first command of a cycle, on queues q.
  ghost predicate FirstIssued(cfg: Config, s: Ctrl, c: Command) {
    Sound(cfg, s) && (cfg.dualCommand && c.IsReadWrite() ==> ColumnsBlocked(cfg, s.channel, s.clk))
  }

  lemma IssueChannelOf(cfg: Config, s: Ctrl, c: Command)
    requires StateAccepts(s.channel, c) && !IssueData(cfg, s, c).halted
    ensures Issue(cfg, s, c).channel == Apply(cfg, s.channel, c, s.clk) && Issue(cfg, s, c).clk == s.clk
  {
    IssueDataHardware(cfg, s, c);
  }

  lemma HaltsOnce(cfg: Config, s: Ctrl, c: Command)
    requires !Issue(cfg, s, c).halted
    ensures !IssueData(cfg, s, c).halted && StateAccepts(s.channel, c)
  {
    if !IssueData(cfg, s, c).halted {
      IssueDataHardware(cfg, s, c);
    }
  }

  lemma FetchIssued(cfg: Config, s: Ctrl, q: Queues, c: Command, l: nat, i: nat)
    requires RunsOk(cfg) && Sound(cfg, s)
    requires ChosenFrom(cfg, s.channel, s.queues, q, c, l, i)
    requires Safe(cfg, s.(queues := q)) && Issuable(cfg, s.(queues := q), c)
    ensures FirstIssued(cfg, Issue(cfg, s.(queues := q), c), c)
  {
    IssueFetched(cfg, s, q, c, l, i);
    if cfg.dualCommand && c.IsReadWrite() {
      assert LaneOk(cfg, s.queues.lanes[l], l);
      assert Placed(cfg, c, l);
      var s1 := s.(queues := q);
      HaltsOnce(cfg, s1, c);
      IssueChannelOf(cfg, s1, c);
      ColumnBlocks(cfg, s.channel, c, s.clk);
    }
  }

  // ------------------------------------------------------------- whole steps

  lemma FetchStepSound(cfg: Config, s: Ctrl)
    requires RunsOk(cfg) && Sound(cfg, s)
    ensures var (q, pick) := Fetch(cfg, s.channel, s.queues, |s.queues.lanes|);
            && !pick.Crash?
            && (pick.Nothing? ==> Sound(cfg, s.(queues := q)))
            && (pick.Chosen? ==> FirstIssued(cfg, Issue(cfg, s.(queues := q), pick.cmd), pick.cmd))
  {
    var l, i := FetchSafe(cfg, s);
    var (q, pick) := Fetch(cfg, s.channel, s.queues, |s.queues.lanes|);
    if pick.Nothing? {
      RequeueSound(cfg, s, q);
    } else {
      FetchIssued(cfg, s, q, pick.cmd, l, i);
    }
  }

  lemma RefreshStepSound(cfg: Config, s: Ctrl)
    requires RunsOk(cfg) && Sound(cfg, s) && s.channel.refreshQ != []
    ensures var (q, pick) := FinishRefresh(cfg, s.channel, s.queues);
            && !pick.Crash?
            && Sound(cfg, s.(queues := q))
            && (pick.Chosen? ==> FirstIssued(cfg, Issue(cfg, s.(queues := q), pick.cmd), pick.cmd))
  {
    FinishRefreshMeaning(cfg, s);
    var (q, pick) := FinishRefresh(cfg, s.channel, s.queues);
    RequeueSound(cfg, s, q);
    if pick.Chosen? {
      IssueOther(cfg, s.(queues := q), pick.cmd);
    }
  }

  lemma FirstPickSound(cfg: Config, s: Ctrl)
    requires RunsOk(cfg) && Sound(cfg, s)
    ensures var (q, pick) := FirstPick(cfg, s.channel, s.queues);
            && !pick.Crash?
            && (pick.Nothing? ==> Sound(cfg, s.(queues := q)))
            && (pick.Chosen? ==> FirstIssued(cfg, Issue(cfg, s.(queues := q), pick.cmd), pick.cmd))
  {
    if s.channel.refreshQ != [] {
      RefreshStepSound(cfg, s);
      var (q, pick) := FinishRefresh(cfg, s.channel, s.queues);
      if pick.Nothing? {
        FetchStepSound(cfg, s.(queues := q));
      }
    } else {
      FetchStepSound(cfg, s);
    }
  }

  lemma IssueStepSound(cfg: Config, s: Ctrl)
    requires RunsOk(cfg) && Sound(cfg, s)
    ensures Sound(cfg, IssueStep(cfg, s))
  {
    FirstPickSound(cfg, s);
    var (q, pick) := FirstPick(cfg, s.channel, s.queues);
    if pick.Chosen? && cfg.dualCommand {
      SecondSound(cfg, Issue(cfg, s.(queues := q), pick.cmd), pick.cmd);
    }
  }

  lemma TickRefreshSound(cfg: Config, s: Ctrl)
    requires ConfigOk(cfg) && Sound(cfg, s)
    ensures Sound(cfg, TickRefresh(cfg, s))
  {
    TickRefreshSafe(cfg, s);
    assert PartsOf(TickRefresh(cfg, s)) == PartsOf(s);
    assert BooksOf(TickRefresh(cfg, s)) == BooksOf(s);
  }

  lemma MoveSafe(cfg: Config, s: Ctrl)
    requires ConfigOk(cfg) && Safe(cfg, s) && Queued(cfg, PartsOf(s))
    ensures Safe(cfg, MoveHead(cfg, s))
  {
    if Moves(cfg, s) {
      var from := SourceOf(cfg, s);
      var c := TransToCommand(cfg, SourceQueue(s, from)[0]);
      var l := LaneOf(cfg, c.Bank());
      assert SourceParts(PartsOf(s), from) == SourceQueue(s, from);
      ArrivalIsNew(PartsOf(s), from, l, c);
      assert LaneOk(cfg, s.queues.lanes[l], l);
      ArrivalKeepsLane(cfg, s.queues.lanes[l], l, c);
      AddedSafe(cfg, s, c);
      MoveHardware(cfg, s);
    } else {
      MoveHardware(cfg, s);
    }
  }

  lemma ArrivalKeepsLane(cfg: Config, lane: seq<Command>, l: int, c: Command)
    requires LaneOk(cfg, lane, l) && Placed(cfg, c, l)
    requires forall i :: 0 <= i < |lane| ==> KeyOf(lane[i]) != KeyOf(c)
    ensures LaneOk(cfg, lane + [c], l)
  {
    forall i | 0 <= i < |lane|
      ensures !SameEntry(lane[i], c)
    {
      assert KeyOf(lane[i]) != KeyOf(c);
    }
    AppendKeepsLane(cfg, lane, l, c);
  }

  lemma AddedSafe(cfg: Config, s: Ctrl, c: Command)
    requires Safe(cfg, s)
    requires 0 <= LaneOf(cfg, c.Bank()) < |s.queues.lanes|
    requires LaneOk(cfg, s.queues.lanes[LaneOf(cfg, c.Bank())] + [c], LaneOf(cfg, c.Bank()))
    ensures Safe(cfg, s.(queues := AddCommand(cfg, s.queues, c)))
  {
  }

  lemma MoveHardware(cfg: Config, s: Ctrl)
    ensures var s' := MoveHead(cfg, s);
            && (Moves(cfg, s) ==>
                  SameHardware(s.(queues := AddCommand(cfg, s.queues, TransToCommand(cfg, SourceQueue(s, SourceOf(cfg, s))[0]))), s'))
            && (!Moves(cfg, s) ==> SameHardware(s, s'))
  {
  }

  lemma PopBooks(s: Ctrl, from: Source)
    requires SourceQueue(s, from) != []
    ensures BooksOf(PopSource(s, from)) == BooksOf(s)
  {
  }

  lemma MoveBooks(cfg: Config, s: Ctrl)
    ensures BooksOf(MoveHead(cfg, s)) == BooksOf(s)
  {
    var from := SourceOf(cfg, s);
    if SourceQueue(s, from) != [] {
      PopBooks(s, from);
      PopBooks(s.(writeDraining := s.writeDraining - 1), from);
    }
  }

  lemma ScheduleSound(cfg: Config, s: Ctrl)
    requires ConfigOk(cfg) && Sound(cfg, s)
    ensures Sound(cfg, Schedule(cfg, s))
  {
    var s1 := s.(writeDraining := Draining(cfg, s));
    assert SameHardware(s, s1) && PartsOf(s1) == PartsOf(s) && BooksOf(s1) == BooksOf(s);
    MoveSafe(cfg, s1);
    MoveQueued(cfg, s1);
    MoveBooks(cfg, s1);
  }

  lemma TickSound(cfg: Config, s: Ctrl)
    requires RunsOk(cfg) && Sound(cfg, s)
    ensures Sound(cfg, Tick(cfg, s))
  {
    var s1 := TickRefresh(cfg, s);
    TickRefreshSound(cfg, s);
    IssueStepSound(cfg, s1);
    var s2 := IssueStep(cfg, s1);
    ScheduleSound(cfg, s2);
    var s3 := Schedule(cfg, s2);
    EndCycleSafe(cfg, s3);
    assert PartsOf(EndCycle(s3)) == PartsOf(s3) && BooksOf(EndCycle(s3)) == BooksOf(s3);
  }

  lemma AcceptSound(cfg: Config, s: Ctrl, addr: int, isWrite: bool, data: int)
    requires Sound(cfg, s)
    ensures Sound(cfg, Accept(cfg, s, addr, isWrite, data))
  {
    assert SameHardware(s, Accept(cfg, s, addr, isWrite, data));
    AcceptQueued(cfg, s, addr, isWrite, data);
    AcceptFaithful(cfg, s, addr, isWrite, data);
  }

  lemma DeliverSound(cfg: Config, s: Ctrl, at: nat)
    requires Sound(cfg, s)
    ensures Sound(cfg, Deliver(s, at))
  {
    assert SameHardware(s, Deliver(s, at));
    assert PartsOf(Deliver(s, at)) == PartsOf(s);
    DeliverFaithful(s, at);
  }

  lemma StepSound(cfg: Config, s: Ctrl, op: Op)
    requires RunsOk(cfg) && Sound(cfg, s)
    ensures Sound(cfg, Step(cfg, s, op))
  {
    match op
    case OpAccept(addr, isWrite, data) => AcceptSound(cfg, s, addr, isWrite, data);
    case OpTick => TickSound(cfg, s);
    case OpDeliver(at) => DeliverSound(cfg, s, at);
  }
}
