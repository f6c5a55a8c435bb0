// Dual command issue keeps every transaction queued exactly when all gaps between
// column commands are positive: for any other gap, a state in which the second
// fetch takes a column command off its queue and drops it.
module DualIssueLoss {
  import opened Basics
  import opened DramTypes
  import opened Banks
  import opened ChannelSpec
  import opened CommandHistory
  import opened QueueSpec
  import opened RefreshSpec
  import opened ControllerSpec
  import opened QueueSafety
  import opened ControllerSafety
  import opened Census
  import opened Servicing
  import opened PlainMemory
  import opened ControllerRuns
  import opened ControllerTheorems
  import opened RefreshBound
  import opened TimingTables
  import opened TimingFacts
  import opened DualIssue
  import A = AddressMap

  // ------------------------------------------------------------ one lane to serve

  // How many lanes the round-robin visits until it comes to lane l.
  function Distance(next: int, l: int, lanes: nat): int { if l > next then l - next else l - next + lanes }

  predicate OnlyLane(q: Queues, l: nat) {
    l < |q.lanes| && 0 <= q.next < |q.lanes| && !q.inRef && forall m :: 0 <= m < |q.lanes| && m != l ==> q.lanes[m] == []
  }

  lemma NextOnly(q: Queues, l: nat)
    requires OnlyLane(q, l)
    ensures OnlyLane(NextLane(q), l) && NextLane(q).lanes == q.lanes && NextLane(q).clk == q.clk
    ensures NextLane(q).next == l || Distance(NextLane(q).next, l, |q.lanes|) == Distance(q.next, l, |q.lanes|) - 1
    ensures NextLane(q).next == l <==> Distance(q.next, l, |q.lanes|) == 1
  {
  }

  lemma TakeSame(cfg: Config, q: Queues, q': Queues, c: Command)
    requires q.lanes == q'.lanes
    ensures Take(cfg, q, c).1 == Take(cfg, q', c).1
  {
  }

  // If only one lane holds anything, the fetch comes to it.
  lemma {:induction false} FetchReaches(cfg: Config, ch: Channel, q: Queues, n: nat, l: nat, c: Command)
    requires OnlyLane(q, l) && Distance(q.next, l, |q.lanes|) <= n
    requires FirstReady(cfg, ch, q.lanes[l], q.clk, 0) == Chosen(c) && Take(cfg, q, c).1 == Chosen(c)
    ensures Fetch(cfg, ch, q, n).1 == Chosen(c)
    decreases n
  {
    NextOnly(q, l);
    var q' := NextLane(q);
    TakeSame(cfg, q, q', c);
    if q'.next != l {
      assert FirstReady(cfg, ch, q'.lanes[q'.next], q'.clk, 0).Nothing?;
      FetchReaches(cfg, ch, q', n - 1, l, c);
    }
  }

  // ------------------------------------------------------------ ready commands

  // The bank of a queued column command is open on its row and its time has passed.
  predicate ReadyColumn(ch: Channel, c: Command, clk: nat) {
    && c.IsReadWrite() && c.Bank() in ch.banks
    && ch.banks[c.Bank()].status == Open && ch.banks[c.Bank()].openRow == c.addr.row
    && ch.banks[c.Bank()].times[c.kind] <= clk
  }

  lemma ReadyColumnChosen(cfg: Config, ch: Channel, lane: seq<Command>, clk: nat)
    requires lane != [] && ReadyColumn(ch, lane[0], clk)
    ensures FirstReady(cfg, ch, lane, clk, 0) == Chosen(lane[0])
  {
    var c := lane[0];
    assert ReplyOf(ch, c.Bank(), c, clk) == Ready(Command(c.kind, c.addr, c.hexAddr));
    assert Command(c.kind, c.addr, c.hexAddr) == c;
  }

  lemma TakesFirst(cfg: Config, q: Queues, l: nat)
    requires l < |q.lanes| && q.lanes[l] != [] && q.lanes[l][0].IsReadWrite() && LaneOf(cfg, q.lanes[l][0].Bank()) == l
    ensures Take(cfg, q, q.lanes[l][0]) == (q.(lanes := q.lanes[l := q.lanes[l][1..]]), Chosen(q.lanes[l][0]))
  {
    assert SameEntry(q.lanes[l][0], q.lanes[l][0]);
    assert Find(q.lanes[l], q.lanes[l][0]) == 0;
    assert Remove(q.lanes[l], 0) == q.lanes[l][1..];
  }

  // ------------------------------------------------------------ about to lose

  // Two commands alone in their lanes.
  predicate TwoQueued(cfg: Config, q: Queues, first: Command, second: Command) {
    var l1, l2 := LaneOf(cfg, first.Bank()), LaneOf(cfg, second.Bank());
    && 0 <= l1 < |q.lanes| && 0 <= l2 < |q.lanes| && 0 <= q.next < |q.lanes|
    && q.lanes[l1] == (if l1 == l2 then [first, second] else [first])
    && (l1 != l2 ==> q.lanes[l2] == [second])
    && forall l :: 0 <= l < |q.lanes| && l != l1 && l != l2 ==> q.lanes[l] == []
  }

  // Only these two commands are queued, the round-robin comes to the first one next,
  // both are ready, and the first asks the second to wait for no cycle.
  ghost predicate Poised(cfg: Config, s: Ctrl, first: Command, second: Command) {
    && s.channel.refreshQ == []
    && TwoQueued(cfg, s.queues, first, second) && NextLane(s.queues).next == LaneOf(cfg, first.Bank())
    && ReadyColumn(s.channel, first, s.clk) && ReadyColumn(s.channel, second, s.clk)
    && (first.Bank() == second.Bank() ==> first.kind == Read || first.kind == Write)
    && Stamp(ListFor(cfg.tables, first, second.Bank()), second.kind, s.clk) <= s.clk
  }

  lemma FirstGoes(cfg: Config, s: Ctrl, first: Command, second: Command)
    requires Poised(cfg, s, first, second) && s.queues.clk == s.clk && !s.queues.inRef
    ensures var (q, pick) := FirstPick(cfg, s.channel, s.queues);
            var l2 := LaneOf(cfg, second.Bank());
            && pick == Chosen(first) && (q, pick) == Fetch(cfg, s.channel, s.queues, |s.queues.lanes|)
            && OnlyLane(q, l2) && q.lanes[l2] == [second] && q.clk == s.clk && |q.lanes| == |s.queues.lanes|
  {
    hide ReadyColumn, Take;
    var q, l1 := NextLane(s.queues), LaneOf(cfg, first.Bank());
    var lane := q.lanes[l1];
    assert lane == s.queues.lanes[l1];
    ReadyColumnChosen(cfg, s.channel, lane, s.clk);
    ColumnOf(s.channel, first, s.clk);
    TakesFirst(cfg, q, l1);
  }

  lemma ColumnOf(ch: Channel, c: Command, clk: nat)
    requires ReadyColumn(ch, c, clk)
    ensures c.IsReadWrite()
  {
  }

  // Issuing the first command leaves the second one ready.
  lemma StillReady(cfg: Config, ch: Channel, first: Command, second: Command, clk: nat)
    requires ReadyColumn(ch, first, clk) && ReadyColumn(ch, second, clk) && StateAccepts(ch, first)
    requires first.Bank() == second.Bank() ==> first.kind == Read || first.kind == Write
    requires Stamp(ListFor(cfg.tables, first, second.Bank()), second.kind, clk) <= clk
    ensures ReadyColumn(Apply(cfg, ch, first, clk), second, clk)
  {
    ApplyAt(cfg, ch, first, clk, second.Bank());
    AcceptsAt(ch, first, second.Bank());
    BankStays(cfg.tables, ch.banks[second.Bank()], first, clk, second.Bank(), second.kind);
    hide Apply, Stamp, ListFor, StateAccepts, ApplyToBank;
  }

  lemma AcceptsAt(ch: Channel, c: Command, id: BankId)
    requires StateAccepts(ch, c) && id in ch.banks
    ensures Reaches(c, id) ==> ch.banks[id].UpdateState(c).Some?
  {
  }

  lemma BankStays(tables: Tables, b: BankState, c: Command, clk: nat, id: BankId, kind: CmdKind)
    requires c.IsReadWrite() && b.status == Open && (c.Bank() == id ==> c.kind == Read || c.kind == Write)
    requires Reaches(c, id) ==> b.UpdateState(c).Some?
    ensures var b' := ApplyToBank(tables, b, c, clk, id);
            && b'.status == Open && b'.openRow == b.openRow
            && b'.times[kind] == Max(b.times[kind], Stamp(ListFor(tables, c, id), kind, clk))
  {
    hide Stamp, ListFor;
  }

  lemma IssueKeepsQueues(cfg: Config, s: Ctrl, c: Command)
    requires !Issue(cfg, s, c).halted
    ensures Issue(cfg, s, c).queues == s.queues
  {
    hide Apply, StateAccepts, Answered;
  }

  // The second fetch then takes the second command off its queue and drops it.
  lemma PoisedLoses(cfg: Config, s: Ctrl, first: Command, second: Command)
    requires ConfigOk(cfg) && cfg.dualCommand && Sound(cfg, s) && Poised(cfg, s, first, second)
    ensures Orphaned(PartsOf(IssueStep(cfg, s)), KeyOf(second))
  {
    hide Poised, Orphaned, Stamp, ListFor, Apply, Fetch, FirstPick, Safe, Sound, ConfigOk, Issue, ChosenFrom, Issuable, OnlyLane, ReadyColumn;
    SoundHas(cfg, s);
    PoisedHas(cfg, s, first, second);
    FirstGoes(cfg, s, first, second);
    var (q, pick) := FirstPick(cfg, s.channel, s.queues);
    var l, i := FetchSafe(cfg, s);
    IssueFetched(cfg, s, q, first, l, i);
    var s1, l2 := s.(queues := q), LaneOf(cfg, second.Bank());
    var s2 := Issue(cfg, s1, first);
    SoundHas(cfg, s2);
    HaltsOnce(cfg, s1, first);
    IssueChannelOf(cfg, s1, first);
    IssueKeepsQueues(cfg, s1, first);
    StillReady(cfg, s.channel, first, second, s.clk);
    ReadyColumnChosen(cfg, s2.channel, [second], s.clk);
    ColumnOf(s.channel, first, s.clk);
    ColumnOf(s.channel, second, s.clk);
    LaneInQueue(q, l2);
    TakesFirst(cfg, q, l2);
    FetchReaches(cfg, s2.channel, q, |q.lanes|, l2, second);
    LostCommand(cfg, s2, first);
    DualStep(cfg, s, q, first);
  }

  lemma LaneInQueue(q: Queues, l: nat)
    requires OnlyLane(q, l)
    ensures l < |q.lanes| && Distance(q.next, l, |q.lanes|) <= |q.lanes|
  {
  }

  lemma SoundHas(cfg: Config, s: Ctrl)
    requires Sound(cfg, s)
    ensures Safe(cfg, s) && !s.halted && s.queues.clk == s.clk
    ensures s.channel.refreshQ == [] ==> !s.queues.inRef
  {
  }

  lemma PoisedHas(cfg: Config, s: Ctrl, first: Command, second: Command)
    requires Poised(cfg, s, first, second)
    ensures ReadyColumn(s.channel, first, s.clk) && ReadyColumn(s.channel, second, s.clk) && s.channel.refreshQ == []
    ensures first.Bank() == second.Bank() ==> first.kind == Read || first.kind == Write
    ensures Stamp(ListFor(cfg.tables, first, second.Bank()), second.kind, s.clk) <= s.clk
    ensures LaneOf(cfg, second.Bank()) >= 0
  {
  }

  lemma DualStep(cfg: Config, s: Ctrl, q: Queues, first: Command)
    requires cfg.dualCommand && FirstPick(cfg, s.channel, s.queues) == (q, Chosen(first))
    requires !Issue(cfg, s.(queues := q), first).halted
    ensures IssueStep(cfg, s) == SecondCommand(cfg, Issue(cfg, s.(queues := q), first), first)
  {
  }

  // ------------------------------------------------------- reaching such a state

  // An accepted transaction that has moved straight into its lane.
  function Enqueued(cfg: Config, s: Ctrl, addr: int, isWrite: bool): Ctrl
    requires NoneWaiting(s) && addr !in s.pendingRd && addr !in s.pendingWr
  {
    var s1 := Accept(cfg, s, addr, isWrite, 0);
    PopSource(s1, SourceFor(cfg, isWrite)).(queues := AddCommand(cfg, s1.queues, QueuedFor(cfg, addr, isWrite)))
  }

  predicate NoneWaiting(s: Ctrl) { s.unifiedQ == [] && s.readQ == [] && s.writeBuf == [] }

  function SourceFor(cfg: Config, isWrite: bool): Source {
    if cfg.unified then FromUnified else if isWrite then FromWrites else FromReads
  }

  function QueuedFor(cfg: Config, addr: int, isWrite: bool): Command { Command(KindFor(cfg, isWrite), cfg.decode(addr), addr) }

  lemma EnqueuedParts(cfg: Config, s: Ctrl, addr: int, isWrite: bool)
    requires NoneWaiting(s) && addr !in s.pendingRd && addr !in s.pendingWr
    ensures var s1, from, c := Accept(cfg, s, addr, isWrite, 0), SourceFor(cfg, isWrite), QueuedFor(cfg, addr, isWrite);
            && SourceParts(PartsOf(s1), from) != []
            && KeyOf(c) == Key(SourceParts(PartsOf(s1), from)[0].addr, SourceParts(PartsOf(s1), from)[0].isWrite)
            && (c.IsWrite() ==> c.hexAddr !in PartsOf(s1).rd)
            && (0 <= LaneOf(cfg, c.Bank()) < |s.queues.lanes| ==>
                  PartsOf(Enqueued(cfg, s, addr, isWrite)) == MoveParts(PartsOf(s1), from, LaneOf(cfg, c.Bank()), c))
  {
    hide LaneOf;
  }

  lemma EnqueuedIs(cfg: Config, s: Ctrl, addr: int, isWrite: bool)
    requires NoneWaiting(s) && addr !in s.pendingRd && addr !in s.pendingWr
    ensures var s1, s' := Accept(cfg, s, addr, isWrite, 0), Enqueued(cfg, s, addr, isWrite);
            && s1.queues == s.queues && BooksOf(s') == BooksOf(s1) && NoneWaiting(s')
            && SameHardware(s1.(queues := AddCommand(cfg, s1.queues, QueuedFor(cfg, addr, isWrite))), s')
            && s'.pendingRd.Keys + s'.pendingWr.Keys == s.pendingRd.Keys + s.pendingWr.Keys + {addr}
            && s'.clk == s.clk && s'.channel == s.channel && s'.queues == AddCommand(cfg, s.queues, QueuedFor(cfg, addr, isWrite))
  {
    hide LaneOf, AddCommand;
  }

  lemma EnqueuedSound(cfg: Config, s: Ctrl, addr: int, isWrite: bool)
    requires ConfigOk(cfg) && Sound(cfg, s) && NoneWaiting(s) && addr !in s.pendingRd && addr !in s.pendingWr
    ensures Sound(cfg, Enqueued(cfg, s, addr, isWrite))
  {
    hide Safe, Faithful, Queued, Accept, Enqueued, MoveParts, AddCommand, LaneOk;
    var s1, s', from, c := Accept(cfg, s, addr, isWrite, 0), Enqueued(cfg, s, addr, isWrite), SourceFor(cfg, isWrite),
        QueuedFor(cfg, addr, isWrite);
    AcceptSound(cfg, s, addr, isWrite, 0);
    EnqueuedIs(cfg, s, addr, isWrite);
    EnqueuedParts(cfg, s, addr, isWrite);
    DecodedLane(cfg, s, addr);
    var l := LaneOf(cfg, c.Bank());
    MovePartsQueued(cfg, PartsOf(s1), from, l, c);
    QueuedIs(cfg, PartsOf(s1));
    ArrivalIsNew(PartsOf(s1), from, l, c);
    SafeLane(cfg, s1, l);
    ArrivalKeepsLane(cfg, s1.queues.lanes[l], l, c);
    AddedSafe(cfg, s1, c);
    SafetyTransfers(cfg, s1.(queues := AddCommand(cfg, s1.queues, c)), s', c);
  }

  lemma QueuedIs(cfg: Config, p: Parts)
    requires Queued(cfg, p)
    ensures Counted(p) && CrossOrdered(p)
  {
  }

  lemma SafeLane(cfg: Config, s: Ctrl, l: nat)
    requires Safe(cfg, s) && l < |s.queues.lanes|
    ensures LaneOk(cfg, s.queues.lanes[l], l)
  {
  }

  // A decoded address names a bank, and its lane exists.
  lemma DecodedLane(cfg: Config, s: Ctrl, addr: int)
    requires ConfigOk(cfg) && Sound(cfg, s)
    ensures var id := Command(Read, cfg.decode(addr), addr).Bank();
            cfg.ValidBank(id) && 0 <= LaneOf(cfg, id) < |s.queues.lanes|
  {
    hide Sound, NumLanes, LaneOf;
    var id := Command(Read, cfg.decode(addr), addr).Bank();
    InBounds(cfg, id);
    SoundHas(cfg, s);
    LaneCount(cfg, s);
  }

  lemma LaneCount(cfg: Config, s: Ctrl)
    requires Safe(cfg, s)
    ensures |s.queues.lanes| == NumLanes(cfg)
  {
  }

  lemma InBounds(cfg: Config, id: BankId)
    requires ConfigOk(cfg) && cfg.ValidBank(id)
    ensures 0 <= LaneOf(cfg, id) < NumLanes(cfg)
  {
    if cfg.perBank {
      LaneRank(cfg, id);
    }
  }

  // Time passes.
  function Later(s: Ctrl, n: nat): Ctrl { s.(clk := s.clk + n, queues := s.queues.(clk := s.queues.clk + n)) }

  lemma LaterSound(cfg: Config, s: Ctrl, n: nat)
    requires Sound(cfg, s)
    ensures Sound(cfg, Later(s, n))
  {
    hide Agrees, Queued, Faithful, RefreshOk, LaneOk;
    assert PartsOf(Later(s, n)) == PartsOf(s) && BooksOf(Later(s, n)) == BooksOf(s);
  }

  // At most k activates are on record for any rank.
  ghost predicate FewActivates(ch: Channel, k: nat) {
    forall rank :: |WindowOf(ch.fourAw, rank)| <= k && |WindowOf(ch.thirtyTwoAw, rank)| <= k
  }

  lemma FewIsOk(cfg: Config, ch: Channel, k: nat, rank: int, clk: nat)
    requires FewActivates(ch, k) && k < FourWindow
    ensures ActivationWindowOk(cfg, ch, rank, clk)
  {
  }

  lemma PushedOne(windows: map<int, seq<nat>>, rank: int, span: nat, clk: nat, k: nat)
    requires forall r :: |WindowOf(windows, r)| <= k
    ensures forall r :: |WindowOf(PushRank(windows, rank, span, clk), r)| <= k + 1
  {
    forall r
      ensures |WindowOf(PushRank(windows, rank, span, clk), r)| <= k + 1
    {
      assert |WindowOf(windows, r)| <= k;
    }
  }

  lemma OneMoreActivate(cfg: Config, ch: Channel, c: Command, clk: nat, k: nat)
    requires FewActivates(ch, k) && StateAccepts(ch, c)
    ensures FewActivates(Apply(cfg, ch, c, clk), k + 1)
  {
    PushedOne(ch.fourAw, c.addr.rank, cfg.tFAW, clk, k);
    PushedOne(ch.thirtyTwoAw, c.addr.rank, cfg.t32AW, clk, k);
    ApplyWindows(cfg, ch, c, clk);
    hide PushRank, Apply, StateAccepts;
  }

  lemma ApplyWindows(cfg: Config, ch: Channel, c: Command, clk: nat)
    requires StateAccepts(ch, c)
    ensures var ch' := Apply(cfg, ch, c, clk);
            && (ch'.fourAw == ch.fourAw || ch'.fourAw == PushRank(ch.fourAw, c.addr.rank, cfg.tFAW, clk))
            && (ch'.thirtyTwoAw == ch.thirtyTwoAw || ch'.thirtyTwoAw == PushRank(ch.thirtyTwoAw, c.addr.rank, cfg.t32AW, clk))
  {
    hide BumpBanks, PushRank;
  }

  function Activating(cfg: Config, addr: int): Command { Command(Activate, cfg.decode(addr), addr) }

  predicate OpenOn(ch: Channel, id: BankId, row: int) { id in ch.banks && ch.banks[id].status == Open && ch.banks[id].openRow == row }

  // What opening a bank leaves alone.
  predicate SameQueues(s: Ctrl, s': Ctrl) {
    && s'.queues.lanes == s.queues.lanes && s'.queues.next == s.queues.next
    && s'.channel.refreshQ == s.channel.refreshQ && s'.channel.banks.Keys == s.channel.banks.Keys
  }

  lemma ActivateIssuable(cfg: Config, s: Ctrl, addr: int, k: nat)
    requires FewActivates(s.channel, k) && k < FourWindow
    requires var id := Activating(cfg, addr).Bank();
             id in s.channel.banks && s.channel.banks[id].status == Closed && s.channel.banks[id].times[Activate] <= s.clk
    ensures Issuable(cfg, s, Activating(cfg, addr)) && StateAccepts(s.channel, Activating(cfg, addr))
  {
    FewIsOk(cfg, s.channel, k, Activating(cfg, addr).addr.rank, s.clk);
    hide ActivationWindowOk, FewActivates;
  }

  lemma ActivateOpens(cfg: Config, ch: Channel, addr: int, clk: nat, id: BankId)
    requires StateAccepts(ch, Activating(cfg, addr)) && id in ch.banks
    ensures var ch', act := Apply(cfg, ch, Activating(cfg, addr), clk), Activating(cfg, addr);
            && id in ch'.banks && ch'.refreshQ == ch.refreshQ
            && (id == act.Bank() ==> OpenOn(ch', id, act.addr.row))
            && (id != act.Bank() ==> ch'.banks[id].status == ch.banks[id].status && ch'.banks[id].openRow == ch.banks[id].openRow)
  {
    ApplyAt(cfg, ch, Activating(cfg, addr), clk, id);
    AcceptsAt(ch, Activating(cfg, addr), id);
    ApplyQueue(cfg, ch, Activating(cfg, addr), clk);
    BankOpens(cfg.tables, ch.banks[id], Activating(cfg, addr), clk, id);
    hide Apply, StateAccepts, ApplyToBank;
  }

  lemma BankOpens(tables: Tables, b: BankState, act: Command, clk: nat, id: BankId)
    requires act.kind == Activate && (Reaches(act, id) ==> b.UpdateState(act).Some?)
    ensures var b' := ApplyToBank(tables, b, act, clk, id);
            if id == act.Bank() then b'.status == Open && b'.openRow == act.addr.row
            else b'.status == b.status && b'.openRow == b.openRow
  {
    hide Bump, ListFor;
  }

  ghost predicate Ground(cfg: Config, s: Ctrl, k: nat) {
    Sound(cfg, s) && FewActivates(s.channel, k) && s.channel.refreshQ == []
  }

  lemma SoundBank(cfg: Config, s: Ctrl, id: BankId)
    requires Sound(cfg, s) && cfg.ValidBank(id)
    ensures id in s.channel.banks && s.channel.banks[id].status != SelfRefresh
  {
    AgreesIsOk(cfg, s.issued, s.channel);
  }

  // The rows of all banks but one are as before.
  predicate SameRows(ch: Channel, ch': Channel, but: BankId) {
    forall id :: id in ch.banks && id != but ==>
      id in ch'.banks && ch'.banks[id].status == ch.banks[id].status && ch'.banks[id].openRow == ch.banks[id].openRow
  }

  // The row of the address is open, or it is the only one that may be.
  predicate Opened(cfg: Config, s: Ctrl, addr: int) { OpenOn(s.channel, Activating(cfg, addr).Bank(), cfg.decode(addr).row) }

  predicate NotElsewhere(cfg: Config, s: Ctrl, addr: int) {
    var id := Activating(cfg, addr).Bank();
    id in s.channel.banks ==> s.channel.banks[id].status == Open ==> s.channel.banks[id].openRow == cfg.decode(addr).row
  }

  // Open the row of an address, unless it is open already.
  lemma OpenRow(cfg: Config, s: Ctrl, addr: int, k: nat) returns (s': Ctrl)
    requires ConfigOk(cfg) && Ground(cfg, s, k) && k < FourWindow
    requires NotElsewhere(cfg, s, addr)
    ensures Ground(cfg, s', k + 1) && SameQueues(s, s') && Opened(cfg, s', addr)
    ensures SameRows(s.channel, s'.channel, Activating(cfg, addr).Bank())
  {
    hide Sound, FewActivates, Apply, StateAccepts, Issuable, Safe;
    var act := Activating(cfg, addr);
    var id := act.Bank();
    assert cfg.ValidBank(id);
    SoundBank(cfg, s, id);
    if s.channel.banks[id].status == Open {
      s' := s;
      MoreActivates(s.channel, k);
    } else {
      var s1 := Later(s, s.channel.banks[id].times[Activate]);
      LaterSound(cfg, s, s.channel.banks[id].times[Activate]);
      SoundHas(cfg, s1);
      ActivateIssuable(cfg, s1, addr, k);
      IssueOther(cfg, s1, act);
      s' := Issue(cfg, s1, act);
      ActivateIs(cfg, s1, addr);
      OneMoreActivate(cfg, s1.channel, act, s1.clk, k);
      forall other | other in s.channel.banks
        ensures other in s'.channel.banks
        ensures other == id ==> OpenOn(s'.channel, id, act.addr.row)
        ensures other != id ==> s'.channel.banks[other].status == s.channel.banks[other].status
                                && s'.channel.banks[other].openRow == s.channel.banks[other].openRow
      {
        ActivateOpens(cfg, s1.channel, addr, s1.clk, other);
      }
      ActivateOpens(cfg, s1.channel, addr, s1.clk, id);
      ApplyKeys(cfg, s1.channel, act, s1.clk);
    }
  }

  lemma MoreActivates(ch: Channel, k: nat)
    requires FewActivates(ch, k)
    ensures FewActivates(ch, k + 1)
  {
  }

  lemma ActivateIs(cfg: Config, s: Ctrl, addr: int)
    requires StateAccepts(s.channel, Activating(cfg, addr)) && !s.halted
    ensures var s' := Issue(cfg, s, Activating(cfg, addr));
            s'.channel == Apply(cfg, s.channel, Activating(cfg, addr), s.clk) && s'.queues == s.queues && s'.clk == s.clk
  {
    hide Apply, StateAccepts;
  }

  lemma AddTwo(cfg: Config, q: Queues, first: Command, second: Command)
    requires forall l :: 0 <= l < |q.lanes| ==> q.lanes[l] == []
    requires 0 <= LaneOf(cfg, first.Bank()) < |q.lanes| && 0 <= LaneOf(cfg, second.Bank()) < |q.lanes| && 0 <= q.next < |q.lanes|
    ensures TwoQueued(cfg, AddCommand(cfg, AddCommand(cfg, q, first), second), first, second)
  {
    hide LaneOf;
  }

  lemma QueueTwo(cfg: Config, a: int, b: int, wa: bool, wb: bool) returns (s: Ctrl)
    requires ConfigOk(cfg) && a != b
    ensures Ground(cfg, s, 0) && TwoQueued(cfg, s.queues, QueuedFor(cfg, a, wa), QueuedFor(cfg, b, wb))
    ensures forall id :: id in s.channel.banks ==> s.channel.banks[id].status == Closed
  {
    hide Sound, FewActivates, Enqueued, LaneOf, TwoQueued, AddCommand, PartsOf, BooksOf, MoveParts;
    var s0 := Init(cfg);
    InitSound(cfg);
    NothingYet(cfg);
    EnqueuedSound(cfg, s0, a, wa);
    EnqueuedIs(cfg, s0, a, wa);
    var s1 := Enqueued(cfg, s0, a, wa);
    EnqueuedSound(cfg, s1, b, wb);
    EnqueuedIs(cfg, s1, b, wb);
    s := Enqueued(cfg, s1, b, wb);
    DecodedLane(cfg, s0, a);
    DecodedLane(cfg, s0, b);
    AddTwo(cfg, s0.queues, QueuedFor(cfg, a, wa), QueuedFor(cfg, b, wb));
  }

  lemma OpenTwo(cfg: Config, s: Ctrl, a: int, b: int) returns (s': Ctrl)
    requires ConfigOk(cfg) && Ground(cfg, s, 0) && forall id :: id in s.channel.banks ==> s.channel.banks[id].status == Closed
    requires Activating(cfg, a).Bank() == Activating(cfg, b).Bank() ==> cfg.decode(a).row == cfg.decode(b).row
    ensures Ground(cfg, s', 2) && SameQueues(s, s') && Opened(cfg, s', a) && Opened(cfg, s', b)
  {
    hide Ground, SameRows, ConfigOk, Opened, NotElsewhere, Activating;
    AllClosed(cfg, s, a);
    BankHere(cfg, s, a);
    BankHere(cfg, s, b);
    var s1 := OpenRow(cfg, s, a, 0);
    ThenNotElsewhere(cfg, s, s1, a, b);
    s' := OpenRow(cfg, s1, b, 1);
    StillOpened(cfg, s1, s', a, b);
  }

  lemma AllClosed(cfg: Config, s: Ctrl, addr: int)
    requires forall id :: id in s.channel.banks ==> s.channel.banks[id].status == Closed
    ensures NotElsewhere(cfg, s, addr)
  {
  }

  lemma ThenNotElsewhere(cfg: Config, s: Ctrl, s': Ctrl, a: int, b: int)
    requires forall id :: id in s.channel.banks ==> s.channel.banks[id].status == Closed
    requires Activating(cfg, b).Bank() in s.channel.banks
    requires Opened(cfg, s', a) && SameRows(s.channel, s'.channel, Activating(cfg, a).Bank())
    requires Activating(cfg, a).Bank() == Activating(cfg, b).Bank() ==> cfg.decode(a).row == cfg.decode(b).row
    ensures NotElsewhere(cfg, s', b)
  {
  }

  lemma StillOpened(cfg: Config, s: Ctrl, s': Ctrl, a: int, b: int)
    requires Opened(cfg, s, a) && Opened(cfg, s', b) && SameRows(s.channel, s'.channel, Activating(cfg, b).Bank())
    requires Activating(cfg, a).Bank() == Activating(cfg, b).Bank() ==> cfg.decode(a).row == cfg.decode(b).row
    ensures Opened(cfg, s', a)
  {
  }

  lemma BankHere(cfg: Config, s: Ctrl, addr: int)
    requires ConfigOk(cfg) && Ground(cfg, s, 0)
    ensures Activating(cfg, addr).Bank() in s.channel.banks
  {
    assert cfg.ValidBank(Activating(cfg, addr).Bank());
    SoundBank(cfg, s, Activating(cfg, addr).Bank());
  }

  // With their rows open, and a long time later.
  lemma Arrange(cfg: Config, a: int, b: int, wa: bool, wb: bool, later: nat) returns (s: Ctrl)
    requires ConfigOk(cfg) && a != b
    requires var first, second := QueuedFor(cfg, a, wa), QueuedFor(cfg, b, wb);
             first.Bank() == second.Bank() ==> first.addr.row == second.addr.row
    ensures var first, second := QueuedFor(cfg, a, wa), QueuedFor(cfg, b, wb);
            && Ground(cfg, s, 2) && later <= s.clk && TwoQueued(cfg, s.queues, first, second)
            && ReadyColumn(s.channel, first, s.clk) && ReadyColumn(s.channel, second, s.clk)
  {
    hide Ground, LaneOf, TwoQueued, QueuedFor, Activating;
    var first, second := QueuedFor(cfg, a, wa), QueuedFor(cfg, b, wb);
    SameCell(cfg, a, wa);
    SameCell(cfg, b, wb);
    var s2 := QueueTwo(cfg, a, b, wa, wb);
    var s4 := OpenTwo(cfg, s2, a, b);
    var wait := Max(later, Max(s4.channel.banks[first.Bank()].times[first.kind], s4.channel.banks[second.Bank()].times[second.kind]));
    LaterGround(cfg, s4, wait);
    s := Later(s4, wait);
    SameTwo(cfg, s2.queues, s.queues, first, second);
  }

  lemma SameTwo(cfg: Config, q: Queues, q': Queues, first: Command, second: Command)
    requires TwoQueued(cfg, q, first, second) && q'.lanes == q.lanes && q'.next == q.next
    ensures TwoQueued(cfg, q', first, second)
  {
  }

  lemma SameCell(cfg: Config, addr: int, isWrite: bool)
    ensures var c := QueuedFor(cfg, addr, isWrite);
            Activating(cfg, addr).Bank() == c.Bank() && c.addr == cfg.decode(addr) && c.IsReadWrite()
  {
  }

  lemma LaterGround(cfg: Config, s: Ctrl, n: nat)
    requires Ground(cfg, s, 2)
    ensures Ground(cfg, Later(s, n), 2)
  {
    LaterSound(cfg, s, n);
    hide Sound;
  }

  lemma NothingYet(cfg: Config)
    ensures var s := Init(cfg);
            && NoneWaiting(s) && s.pendingRd == map[] && s.pendingWr == map[] && s.channel.refreshQ == [] && FewActivates(s.channel, 0)
            && s.queues.next == 0 && (forall l :: 0 <= l < |s.queues.lanes| ==> s.queues.lanes[l] == [])
            && (forall id :: id in s.channel.banks ==> s.channel.banks[id].status == Closed)
  {
  }

  // ------------------------------------------------- the exact condition

  // The round-robin stands just before lane l.
  function Before(q: Queues, l: nat): Queues
    requires l < |q.lanes|
  {
    q.(next := if l == 0 then |q.lanes| - 1 else l - 1)
  }

  lemma BeforeSound(cfg: Config, s: Ctrl, l: nat)
    requires Sound(cfg, s) && l < |s.queues.lanes|
    ensures Sound(cfg, s.(queues := Before(s.queues, l))) && NextLane(Before(s.queues, l)).next == l
  {
    hide Agrees, RefreshOk, LaneOk, Queued, Faithful;
    RequeueSound(cfg, s, Before(s.queues, l));
  }

  // The gap between two column commands, where there is one, is all that the first
  // one asks of the second.
  lemma StampAfterGap(p: Params, cfg: Config, first: Command, second: Command, clk: nat)
    requires cfg.tables == TablesOf(p) && first.IsReadWrite() && second.IsReadWrite()
    requires first.Bank() == second.Bank() ==> first.kind == Read || first.kind == Write
    requires var gap := ColumnSpacing(p, first.IsRead(), second.IsRead(), DistanceOf(first, second.Bank())); 0 <= clk + gap && gap <= 0
    ensures Stamp(ListFor(cfg.tables, first, second.Bank()), second.kind, clk) <= clk
  {
    StampIsSpacing(p, first, second.kind, second.Bank(), clk);
    hide ColumnSpacing, TablesOf, Stamp, ListFor;
  }

  // A gap that is not positive loses a command.
  lemma GapLoses(p: Params, cfg: Config, a: int, b: int, wa: bool, wb: bool) returns (s: Ctrl)
    requires ConfigOk(cfg) && cfg.tables == TablesOf(p) && cfg.dualCommand && a != b
    requires var first, second := QueuedFor(cfg, a, wa), QueuedFor(cfg, b, wb);
             && (first.Bank() == second.Bank() ==> !cfg.closePage && first.addr.row == second.addr.row)
             && ColumnSpacing(p, !wa, !wb, DistanceOf(first, second.Bank())) <= 0
    ensures Sound(cfg, s) && Orphaned(PartsOf(IssueStep(cfg, s)), KeyOf(QueuedFor(cfg, b, wb)))
  {
    hide Sound, ColumnSpacing, DistanceOf, TwoQueued, ReadyColumn, FewActivates, LaneOf, IssueStep, ListFor, Stamp, Orphaned, PartsOf, TablesOf;
    var first, second := QueuedFor(cfg, a, wa), QueuedFor(cfg, b, wb);
    var gap := ColumnSpacing(p, !wa, !wb, DistanceOf(first, second.Bank()));
    var s1 := Arrange(cfg, a, b, wa, wb, -gap);
    TwoLanes(cfg, s1.queues, first, second);
    BeforeSound(cfg, s1, LaneOf(cfg, first.Bank()));
    s := s1.(queues := Before(s1.queues, LaneOf(cfg, first.Bank())));
    StampAfterGap(p, cfg, first, second, s.clk);
    PoisedLoses(cfg, s, first, second);
  }

  lemma TwoLanes(cfg: Config, q: Queues, first: Command, second: Command)
    requires TwoQueued(cfg, q, first, second)
    ensures 0 <= LaneOf(cfg, first.Bank()) < |q.lanes|
    ensures TwoQueued(cfg, Before(q, LaneOf(cfg, first.Bank())), first, second)
  {
  }

  // Every bank has a row of which two cells have an address.
  ghost predicate TwoCells(cfg: Config, id: BankId, a: int, b: int) {
    && a != b && cfg.decode(a).row == cfg.decode(b).row
    && Activating(cfg, a).Bank() == id && Activating(cfg, b).Bank() == id
  }

  ghost predicate Addressed(cfg: Config) {
    forall id :: cfg.ValidBank(id) ==> exists a, b :: TwoCells(cfg, id, a, b)
  }

  // No issuing step of a sound state leaves a pending transaction in no queue.
  ghost predicate NeverLoses(cfg: Config) {
    forall s, k {:trigger Orphaned(PartsOf(IssueStep(cfg, s)), k)} :: Sound(cfg, s) ==> !Orphaned(PartsOf(IssueStep(cfg, s)), k)
  }

  lemma GapsKeep(cfg: Config)
    requires ConfigOk(cfg) && ColumnGapsPositive(cfg)
    ensures NeverLoses(cfg)
  {
    hide Sound, Orphaned, IssueStep, PartsOf, ColumnGapsPositive, ConfigOk;
    forall s, k | Sound(cfg, s)
      ensures !Orphaned(PartsOf(IssueStep(cfg, s)), k)
    {
      GapsRun(cfg);
      IssueStepSound(cfg, s);
      SoundCounted(cfg, IssueStep(cfg, s), k);
    }
  }

  lemma GapsRun(cfg: Config)
    requires ConfigOk(cfg) && ColumnGapsPositive(cfg)
    ensures RunsOk(cfg)
  {
  }

  lemma SoundCounted(cfg: Config, s: Ctrl, k: Key)
    requires Sound(cfg, s)
    ensures !Orphaned(PartsOf(s), k)
  {
    hide Safe, Faithful, Ordered, Sorted;
    if Orphaned(PartsOf(s), k) {
      OrphanBreaksCount(PartsOf(s), k);
    }
  }

  // The gap that is missing, and the cells that show it.
  lemma MissingGap(p: Params, cfg: Config) returns (first: Command, id: BankId, isWrite: bool)
    requires cfg.tables == TablesOf(p) && !ColumnGapsPositive(cfg)
    ensures first.kind == KindFor(cfg, first.IsWrite()) && cfg.ValidBank(first.Bank()) && cfg.ValidBank(id)
    ensures (cfg.closePage ==> id != first.Bank())
    ensures ColumnSpacing(p, !first.IsWrite(), !isWrite, DistanceOf(first, id)) <= 0
  {
    first, id, isWrite :| first.kind == KindFor(cfg, first.IsWrite()) && cfg.ValidBank(first.Bank()) && cfg.ValidBank(id)
      && (cfg.closePage ==> id != first.Bank()) && !HasGap(ListFor(cfg.tables, first, id), KindFor(cfg, isWrite));
    GapIs(p, cfg, first, id, isWrite);
  }

  lemma CellsOf(cfg: Config, id: BankId) returns (a: int, b: int)
    requires Addressed(cfg) && cfg.ValidBank(id)
    ensures TwoCells(cfg, id, a, b)
  {
    a, b :| TwoCells(cfg, id, a, b);
  }

  lemma GapsNeeded(p: Params, cfg: Config)
    requires ConfigOk(cfg) && cfg.tables == TablesOf(p) && cfg.dualCommand && Addressed(cfg) && !ColumnGapsPositive(cfg)
    ensures !NeverLoses(cfg)
  {
    hide Sound, ColumnSpacing, Orphaned, IssueStep, PartsOf, ColumnGapsPositive, TablesOf, Addressed;
    var first, id, isWrite := MissingGap(p, cfg);
    var a, a' := CellsOf(cfg, first.Bank());
    var b', b := CellsOf(cfg, id);
    if id == first.Bank() {
      b := a';
    }
    var s := GapLoses(p, cfg, a, b, first.IsWrite(), isWrite);
  }

  // With the tables of timing.cc and dual issue on, no cycle of any sound state
  // drops a command exactly when every gap between column commands is positive.
  lemma DualIssueSafeIff(p: Params, cfg: Config)
    requires ConfigOk(cfg) && cfg.tables == TablesOf(p) && cfg.dualCommand && Addressed(cfg)
    ensures NeverLoses(cfg) <==> PositiveGaps(p, cfg)
  {
    hide *;
    GapsIff(p, cfg);
    if PositiveGaps(p, cfg) {
      GapsKeep(cfg);
    } else {
      GapsNeeded(p, cfg);
    }
  }

  lemma GapsIff(p: Params, cfg: Config)
    requires ConfigOk(cfg) && cfg.tables == TablesOf(p)
    ensures ColumnGapsPositive(cfg) <==> PositiveGaps(p, cfg)
  {
    ColumnGapsIff(p, cfg);
  }

  // ------------------------------------------------- the address maps that qualify

  function CellIn(id: BankId, column: int): Address { Address(0, id.rank, id.bankgroup, id.bank, 0, column) }

  lemma CellFound(m: A.Map, cfg: Config, id: BankId, column: nat)
    requires m.Valid() && cfg.ValidBank(id) && column <= 1 && m.d.Width(A.Column) >= 1
    requires cfg.ranks == A.Pow2(m.d.Width(A.Rank)) && cfg.bankgroups == A.Pow2(m.d.Width(A.Bankgroup))
    requires cfg.banksPerGroup == A.Pow2(m.d.Width(A.Bank))
    ensures m.AddressMapping(A.Encode(m, CellIn(id, column))) == CellIn(id, column)
  {
    var a := CellIn(id, column);
    A.PowMonotone(1, m.d.Width(A.Column));
    assert A.Pow2(1) == 2 * A.Pow2(0) == 2;
    forall f: A.Field
      ensures 0 <= A.Component(a, f) < A.Pow2(m.d.Width(f))
    {
    }
    A.EveryCellHasAnAddress(m, a);
  }

  // With dimensions that are powers of two and at least two columns to a row, the
  // address map of the configuration reaches two cells of a row of every bank.
  lemma MapAddressed(m: A.Map, cfg: Config)
    requires m.Valid() && m.d.Width(A.Column) >= 1 && forall hex: int :: cfg.decode(hex) == m.AddressMapping(hex)
    requires cfg.ranks == A.Pow2(m.d.Width(A.Rank)) && cfg.bankgroups == A.Pow2(m.d.Width(A.Bankgroup))
    requires cfg.banksPerGroup == A.Pow2(m.d.Width(A.Bank))
    ensures Addressed(cfg)
  {
    forall id | cfg.ValidBank(id)
      ensures exists a, b :: TwoCells(cfg, id, a, b)
    {
      CellFound(m, cfg, id, 0);
      CellFound(m, cfg, id, 1);
      assert TwoCells(cfg, id, A.Encode(m, CellIn(id, 0)), A.Encode(m, CellIn(id, 1)));
    }
  }
}
