// When a row is closed under a waiting command, read off the history and the queue:
// nothing here looks at the counters and rules of the command queue.
module RowPolicy {
  import opened Basics
  import opened DramTypes
  import opened Banks
  import opened ChannelSpec
  import opened CommandHistory
  import opened QueueSpec
  import opened RefreshSpec
  import opened ControllerSpec
  import opened QueueSafety
  import opened ControllerSafety
  import opened ControllerRuns
  import opened ControllerTheorems
  import opened BankRefreshGap

  // ------------------------------------------------------------------ row hits

  // The reads and writes that a bank has served since its last activate.
  function HitsOf(h: seq<Issued>, id: BankId): nat {
    if h == [] then 0
    else
      var last := h[|h| - 1].cmd;
      if !Reaches(last, id) then HitsOf(h[..|h| - 1], id)
      else if last.kind == Activate || ClosesRow(last.kind) then 0
      else HitsOf(h[..|h| - 1], id) + if last.kind == Read || last.kind == Write then 1 else 0
  }

  predicate BankCounts(h: seq<Issued>, id: BankId, b: BankState) {
    b.rowHits == HitsOf(h, id) && (b.status != Open ==> b.rowHits == 0)
  }

  ghost predicate HitsAgree(s: Ctrl) { forall id :: id in s.channel.banks ==> BankCounts(s.issued, id, s.channel.banks[id]) }

  lemma HitsMore(h: seq<Issued>, e: Issued, id: BankId)
    ensures HitsOf(h + [e], id) ==
              if !Reaches(e.cmd, id) then HitsOf(h, id)
              else if e.cmd.kind == Activate || ClosesRow(e.cmd.kind) then 0
              else HitsOf(h, id) + if e.cmd.kind == Read || e.cmd.kind == Write then 1 else 0
  {
    assert (h + [e])[..|h|] == h;
  }

  lemma MovedHits(b: BankState, c: Command)
    requires b.UpdateState(c).Some? && (b.status != Open ==> b.rowHits == 0)
    ensures var b' := b.UpdateState(c).value;
            && (b'.status != Open ==> b'.rowHits == 0)
            && b'.rowHits == (if c.kind == Activate || ClosesRow(c.kind) then 0
                              else b.rowHits + if c.kind == Read || c.kind == Write then 1 else 0)
  {
  }

  lemma BankStillCounts(tables: Tables, h: seq<Issued>, id: BankId, b: BankState, c: Command, clk: nat)
    requires BankCounts(h, id, b) && (Reaches(c, id) ==> b.UpdateState(c).Some?)
    ensures BankCounts(h + [Issued(c, clk)], id, ApplyToBank(tables, b, c, clk, id))
  {
    HitsMore(h, Issued(c, clk), id);
    if Reaches(c, id) {
      MovedHits(b, c);
    }
    hide Bump, ListFor, HitsOf, Reaches, ClosesRow;
  }

  lemma ApplyCounts(cfg: Config, s: Ctrl, c: Command)
    requires HitsAgree(s) && StateAccepts(s.channel, c)
    ensures HitsAgree(s.(channel := Apply(cfg, s.channel, c, s.clk), issued := s.issued + [Issued(c, s.clk)]))
  {
    hide Apply, ApplyToBank, BankCounts;
    ApplyKeys(cfg, s.channel, c, s.clk);
    var ch' := Apply(cfg, s.channel, c, s.clk);
    forall id | id in ch'.banks
      ensures BankCounts(s.issued + [Issued(c, s.clk)], id, ch'.banks[id])
    {
      ApplyAt(cfg, s.channel, c, s.clk, id);
      BankStillCounts(cfg.tables, s.issued, id, s.channel.banks[id], c, s.clk);
    }
  }

  lemma DataKeepsChannel(cfg: Config, s: Ctrl, c: Command)
    ensures var s' := IssueData(cfg, s, c); s'.channel == s.channel && s'.issued == s.issued && s'.clk == s.clk
  {
    hide Answered;
  }

  lemma IssueCounts(cfg: Config, s: Ctrl, c: Command)
    requires HitsAgree(s)
    ensures HitsAgree(Issue(cfg, s, c))
  {
    hide HitsAgree, Apply, StateAccepts, IssueData;
    DataKeepsChannel(cfg, s, c);
    SameCounts(s, IssueData(cfg, s, c));
    SameCounts(s, IssueData(cfg, s, c).(halted := true));
    if StateAccepts(s.channel, c) {
      ApplyCounts(cfg, s, c);
      SameCounts(s.(channel := Apply(cfg, s.channel, c, s.clk), issued := s.issued + [Issued(c, s.clk)]), Issue(cfg, s, c));
    }
  }

  lemma SameCounts(s: Ctrl, s': Ctrl)
    ensures s'.channel.banks == s.channel.banks && s'.issued == s.issued && HitsAgree(s) ==> HitsAgree(s')
  {
  }

  lemma IssueStepCounts(cfg: Config, s: Ctrl)
    requires HitsAgree(s)
    ensures HitsAgree(IssueStep(cfg, s))
  {
    hide HitsAgree, Issue, Fetch, FirstPick;
    var (q, pick) := FirstPick(cfg, s.channel, s.queues);
    SameCounts(s, s.(queues := q));
    SameCounts(s, s.(queues := q, halted := true));
    if pick.Chosen? {
      IssueCounts(cfg, s.(queues := q), pick.cmd);
      var s2 := Issue(cfg, s.(queues := q), pick.cmd);
      var (q', second) := Fetch(cfg, s2.channel, s2.queues, |s2.queues.lanes|);
      SameCounts(s2, s2.(queues := q'));
      SameCounts(s2, s2.(queues := q', halted := true));
      if second.Chosen? {
        IssueCounts(cfg, s2.(queues := q'), second.cmd);
      }
    }
  }

  lemma ScheduleKeepsChannel(cfg: Config, s: Ctrl)
    ensures Schedule(cfg, s).channel == s.channel && Schedule(cfg, s).issued == s.issued
  {
    hide AddCommand, WillAcceptCommand, Draining;
  }

  lemma StepCounts(cfg: Config, s: Ctrl, op: Op)
    requires HitsAgree(s)
    ensures HitsAgree(Step(cfg, s, op))
  {
    hide HitsAgree, IssueStep, Schedule, Accept, Deliver;
    if !s.halted {
      match op {
        case OpAccept(addr, isWrite, data) =>
          AcceptKeepsChannel(cfg, s, addr, isWrite, data);
          SameCounts(s, Accept(cfg, s, addr, isWrite, data));
        case OpDeliver(at) =>
          DeliverKeepsChannel(s, at);
          SameCounts(s, Deliver(s, at));
        case OpTick =>
          var s1 := TickRefresh(cfg, s);
          SameCounts(s, s1);
          IssueStepCounts(cfg, s1);
          var s2 := IssueStep(cfg, s1);
          ScheduleKeepsChannel(cfg, s2);
          SameCounts(s2, EndCycle(Schedule(cfg, s2)));
      }
    }
  }

  lemma AcceptKeepsChannel(cfg: Config, s: Ctrl, addr: int, isWrite: bool, data: int)
    ensures var s' := Accept(cfg, s, addr, isWrite, data); s'.channel == s.channel && s'.issued == s.issued
  {
  }

  lemma DeliverKeepsChannel(s: Ctrl, at: nat)
    ensures Deliver(s, at).channel == s.channel && Deliver(s, at).issued == s.issued
  {
  }

  // On every run an open bank's hit counter counts the reads and writes since its row
  // was opened.
  lemma {:induction false} RunCounts(cfg: Config, ops: seq<Op>)
    ensures HitsAgree(Run(cfg, Init(cfg), ops))
  {
    if ops != [] {
      RunCounts(cfg, ops[..|ops| - 1]);
      StepCounts(cfg, Run(cfg, Init(cfg), ops[..|ops| - 1]), ops[|ops| - 1]);
    }
  }

  // ------------------------------------------------------------------ the rules

  // The row may be closed for queue entry i: no older entry is for its bank, and either
  // no entry from i on goes to the open row, or the row has had four hits.
  predicate MayClose(h: seq<Issued>, lane: seq<Command>, i: nat)
    requires i < |lane|
  {
    var id := lane[i].Bank();
    && (forall j :: 0 <= j < i ==> lane[j].Bank() != id)
    && (HitsOf(h, id) >= 4
        || forall j :: i <= j < |lane| && lane[j].Bank() == id ==> RowOf(h, id) != Some(lane[j].addr.row))
  }

  // An older read goes to the same cell of the same bank of the rank.
  predicate BehindRead(lane: seq<Command>, i: nat)
    requires i < |lane|
  {
    exists j :: 0 <= j < i && (lane[j].kind == Read || lane[j].kind == ReadPrecharge)
                && (lane[j].addr.row, lane[j].addr.column) == (lane[i].addr.row, lane[i].addr.column)
                && (lane[j].addr.bankgroup, lane[j].addr.bank) == (lane[i].addr.bankgroup, lane[i].addr.bank)
  }

  // The channel has an answer for entry i, and it is not one to wait with.
  predicate Selectable(cfg: Config, s: Ctrl, lane: seq<Command>, i: nat)
    requires i < |lane|
  {
    var r := GetReady(cfg, s.channel, lane[i], s.clk);
    && r.Ready?
    && (r.cmd.kind == Precharge ==> MayClose(s.issued, lane, i))
    && (r.cmd.kind == Write || r.cmd.kind == WritePrecharge ==> !BehindRead(lane, i))
  }

  lemma HeldIs(cfg: Config, s: Ctrl, l: nat, i: nat)
    requires ConfigOk(cfg) && Sound(cfg, s) && HitsAgree(s) && l < |s.queues.lanes| && i < |s.queues.lanes[l]|
    ensures var lane := s.queues.lanes[l];
            var r := GetReady(cfg, s.channel, lane[i], s.clk);
            && !r.Abort?
            && (r.Ready? ==> (Selectable(cfg, s, lane, i) <==> !HeldBack(s.channel, lane, i, r.cmd)))
  {
    var lane := s.queues.lanes[l];
    AgreesIsOk(cfg, s.issued, s.channel);
    assert LaneOk(cfg, lane, l);
    NeverAborts(cfg, s.channel, lane, l, i, s.clk);
    assert Placed(cfg, lane[i], l);
    var id := lane[i].Bank();
    assert cfg.ValidBank(id) && id in s.channel.banks;
    RowsAt(cfg, s, id);
    HeldAt(cfg, s, lane, i);
    hide Sound, HitsAgree, GetReady, HeldBack, Selectable, Agrees;
  }

  lemma RowsAt(cfg: Config, s: Ctrl, id: BankId)
    requires Sound(cfg, s) && HitsAgree(s) && id in s.channel.banks
    ensures RowAgrees(s.issued, id, s.channel.banks[id]) && BankCounts(s.issued, id, s.channel.banks[id])
  {
  }

  lemma HeldAt(cfg: Config, s: Ctrl, lane: seq<Command>, i: nat)
    requires i < |lane| && lane[i].Bank() in s.channel.banks && lane[i].IsReadWrite()
    requires RowAgrees(s.issued, lane[i].Bank(), s.channel.banks[lane[i].Bank()])
    requires BankCounts(s.issued, lane[i].Bank(), s.channel.banks[lane[i].Bank()])
    ensures var r := GetReady(cfg, s.channel, lane[i], s.clk);
            r.Ready? ==> (Selectable(cfg, s, lane, i) <==> !HeldBack(s.channel, lane, i, r.cmd))
  {
    WaitsIs(lane, i);
    OnlyOpenCloses(cfg, s, lane, i);
    hide GetReady, RowOf, HitsOf, WaitsForRead, BehindRead;
  }

  lemma OnlyOpenCloses(cfg: Config, s: Ctrl, lane: seq<Command>, i: nat)
    requires i < |lane| && lane[i].Bank() in s.channel.banks && lane[i].IsReadWrite()
    requires s.channel.banks[lane[i].Bank()].status != SelfRefresh
    ensures var r := GetReady(cfg, s.channel, lane[i], s.clk);
            r.Ready? && r.cmd.kind == Precharge ==> s.channel.banks[lane[i].Bank()].status == Open
  {
  }

  lemma WaitsIs(lane: seq<Command>, i: nat)
    requires i < |lane|
    ensures WaitsForRead(lane, i) <==> BehindRead(lane, i)
  {
    if WaitsForRead(lane, i) {
      var j :| 0 <= j < i && SameCellRead(lane[j], lane[i]);
    }
    if BehindRead(lane, i) {
      var j :| 0 <= j < i && (lane[j].kind == Read || lane[j].kind == ReadPrecharge)
                && (lane[j].addr.row, lane[j].addr.column) == (lane[i].addr.row, lane[i].addr.column)
                && (lane[j].addr.bankgroup, lane[j].addr.bank) == (lane[i].addr.bankgroup, lane[i].addr.bank);
      assert SameCellRead(lane[j], lane[i]);
    }
  }

  // A queue yields the answer for its first selectable entry, and nothing only if it
  // has none.
  ghost predicate Yields(cfg: Config, s: Ctrl, lane: seq<Command>, from: nat, pick: Pick) {
    match pick
    case Crash => false
    case Nothing => forall k :: from <= k < |lane| ==> !Selectable(cfg, s, lane, k)
    case Chosen(c) =>
      exists k :: from <= k < |lane| && Selectable(cfg, s, lane, k) && GetReady(cfg, s.channel, lane[k], s.clk) == Ready(c)
                  && forall m :: from <= m < k ==> !Selectable(cfg, s, lane, m)
  }

  lemma {:induction false} FirstSelectable(cfg: Config, s: Ctrl, l: nat, from: nat)
    requires ConfigOk(cfg) && Sound(cfg, s) && HitsAgree(s) && l < |s.queues.lanes| && from <= |s.queues.lanes[l]|
    ensures Yields(cfg, s, s.queues.lanes[l], from, FirstReady(cfg, s.channel, s.queues.lanes[l], s.clk, from))
    decreases |s.queues.lanes[l]| - from
  {
    hide Sound, HitsAgree, GetReady, HeldBack, Selectable;
    var lane := s.queues.lanes[l];
    if from < |lane| {
      HeldIs(cfg, s, l, from);
      NotReadyNot(cfg, s, lane, from);
      FirstSelectable(cfg, s, l, from + 1);
    }
  }

  lemma NotReadyNot(cfg: Config, s: Ctrl, lane: seq<Command>, i: nat)
    requires i < |lane|
    ensures Selectable(cfg, s, lane, i) ==> GetReady(cfg, s.channel, lane[i], s.clk).Ready?
  {
  }

  // On every run, a queue yields the answer for its first selectable entry.
  lemma QueueYields(cfg: Config, ops: seq<Op>, l: nat)
    requires RunsOk(cfg) && l < |Run(cfg, Init(cfg), ops).queues.lanes|
    ensures var s := Run(cfg, Init(cfg), ops);
            Yields(cfg, s, s.queues.lanes[l], 0, FirstReady(cfg, s.channel, s.queues.lanes[l], s.clk, 0))
  {
    hide Run, Init, Yields, Sound, HitsAgree;
    RunSound(cfg, ops);
    RunCounts(cfg, ops);
    FirstSelectable(cfg, Run(cfg, Init(cfg), ops), l, 0);
  }

  // A precharge fetched from the queues of a sound state: some entry asked for it, and
  // for that entry the row may be closed.
  lemma FetchedPrecharge(cfg: Config, s: Ctrl) returns (l: nat, i: nat)
    requires ConfigOk(cfg) && Sound(cfg, s) && HitsAgree(s)
    requires var pick := Fetch(cfg, s.channel, s.queues, |s.queues.lanes|).1; pick.Chosen? && pick.cmd.kind == Precharge
    ensures l < |s.queues.lanes| && i < |s.queues.lanes[l]|
    ensures Fetch(cfg, s.channel, s.queues, |s.queues.lanes|).1.cmd.addr == s.queues.lanes[l][i].addr
    ensures MayClose(s.issued, s.queues.lanes[l], i)
  {
    hide Fetch, MayClose, HeldBack, HitsAgree, Agrees;
    l, i := FetchSafe(cfg, s);
    var c := Fetch(cfg, s.channel, s.queues, |s.queues.lanes|).1.cmd;
    var lane := s.queues.lanes[l];
    assert LaneOk(cfg, lane, l);
    assert Placed(cfg, lane[i], l);
    PrechargeHeld(cfg, s, lane, i, c);
  }

  lemma PrechargeHeld(cfg: Config, s: Ctrl, lane: seq<Command>, i: nat, c: Command)
    requires Sound(cfg, s) && HitsAgree(s) && i < |lane| && c.kind == Precharge && c.addr == lane[i].addr
    requires Legal(s.channel, c, s.clk) && !HeldBack(s.channel, lane, i, c)
    ensures MayClose(s.issued, lane, i)
  {
    var id := lane[i].Bank();
    assert c.Bank() == id && Fits(s.channel.banks[id], c, s.clk);
    RowsAt(cfg, s, id);
    hide Sound, HitsAgree, RowOf, HitsOf, Legal;
  }

  // In particular on every run.
  lemma RunFetchesPrecharge(cfg: Config, ops: seq<Op>) returns (l: nat, i: nat)
    requires RunsOk(cfg)
    requires var s := Run(cfg, Init(cfg), ops);
             var pick := Fetch(cfg, s.channel, s.queues, |s.queues.lanes|).1;
             pick.Chosen? && pick.cmd.kind == Precharge
    ensures var s := Run(cfg, Init(cfg), ops);
            && l < |s.queues.lanes| && i < |s.queues.lanes[l]|
            && Fetch(cfg, s.channel, s.queues, |s.queues.lanes|).1.cmd.addr == s.queues.lanes[l][i].addr
            && MayClose(s.issued, s.queues.lanes[l], i)
  {
    hide Run, Init, Fetch, MayClose, Sound, HitsAgree;
    RunSound(cfg, ops);
    RunCounts(cfg, ops);
    l, i := FetchedPrecharge(cfg, Run(cfg, Init(cfg), ops));
  }

  // ------------------------------------------------------------------ the queues

  lemma SameDigits(n: nat, a: int, b: int, a': int, b': int)
    requires 0 <= b < n && 0 <= b' < n && a * n + b == a' * n + b'
    ensures a == a' && b == b'
  {
    Quotient(a * n + b, n, a, b);
    Quotient(a' * n + b', n, a', b');
  }

  // Banks have queues of their own, or ranks have.
  lemma OwnLane(cfg: Config, id: BankId, id': BankId)
    requires cfg.ValidBank(id) && cfg.ValidBank(id')
    ensures LaneOf(cfg, id) == LaneOf(cfg, id') <==> if cfg.perBank then id == id' else id.rank == id'.rank
  {
    if cfg.perBank && LaneOf(cfg, id) == LaneOf(cfg, id') {
      var n := cfg.banksPerGroup;
      InBox(n, id.bank, cfg.bankgroups, id.bankgroup);
      InBox(n, id'.bank, cfg.bankgroups, id'.bankgroup);
      SameDigits(cfg.bankgroups * n, id.rank, id.bankgroup * n + id.bank, id'.rank, id'.bankgroup * n + id'.bank);
      SameDigits(n, id.bankgroup, id.bank, id'.bankgroup, id'.bank);
    }
  }

  // On every run two queued commands stand in one queue exactly when they are for the
  // same bank, or with a queue for each rank for the same rank.
  lemma QueuesSeparate(cfg: Config, ops: seq<Op>, l: nat, i: nat, l': nat, i': nat)
    requires RunsOk(cfg)
    requires var lanes := Run(cfg, Init(cfg), ops).queues.lanes;
             l < |lanes| && i < |lanes[l]| && l' < |lanes| && i' < |lanes[l']|
    ensures var lanes := Run(cfg, Init(cfg), ops).queues.lanes;
            var a, b := lanes[l][i].Bank(), lanes[l'][i'].Bank();
            l == l' <==> if cfg.perBank then a == b else a.rank == b.rank
  {
    hide Run, Init, LaneOf;
    RunSound(cfg, ops);
    var s := Run(cfg, Init(cfg), ops);
    PlacedAt(cfg, s, l, i);
    PlacedAt(cfg, s, l', i');
    OwnLane(cfg, s.queues.lanes[l][i].Bank(), s.queues.lanes[l'][i'].Bank());
    hide Sound;
  }

  lemma PlacedAt(cfg: Config, s: Ctrl, l: nat, i: nat)
    requires ConfigOk(cfg) && Sound(cfg, s) && l < |s.queues.lanes| && i < |s.queues.lanes[l]|
    ensures LaneOf(cfg, s.queues.lanes[l][i].Bank()) == l && cfg.ValidBank(s.queues.lanes[l][i].Bank())
    ensures !s.queues.lanes[l][i].IsRankCommand()
  {
    assert LaneOk(cfg, s.queues.lanes[l], l);
    assert Placed(cfg, s.queues.lanes[l][i], l);
  }
}
