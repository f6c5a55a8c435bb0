// When a response is due, read off the history: a write one cycle after it came, a read
// with the last data of the burst that its command started, and a forwarded read one
// cycle after it came.
module ReadLatency {
  import opened Basics
  import opened DramTypes
  import opened Banks
  import opened ChannelSpec
  import opened CommandHistory
  import opened QueueSpec
  import opened ControllerSpec
  import opened ControllerRuns
  import opened ControllerTheorems
  import opened BankRefreshGap
  import opened TimingTables
  import D = DataBus

  // A write of the address was accepted before t.
  predicate WrittenBefore(log: seq<Transaction>, t: Transaction) {
    exists j :: 0 <= j < |log| && j < t.id && log[j].isWrite && log[j].addr == t.addr
  }

  // A read of t's address went out since t came, and its data has all arrived.
  predicate Served(delay: nat, issued: seq<Issued>, t: Transaction) {
    exists i :: 0 <= i < |issued| && issued[i].cmd.IsRead() && issued[i].cmd.hexAddr == t.addr
                && t.added <= issued[i].clk && t.complete == issued[i].clk + delay
  }

  predicate Timed(delay: nat, issued: seq<Issued>, log: seq<Transaction>, t: Transaction) {
    if t.isWrite then t.complete == t.added + 1
    else (t.complete == t.added + 1 && WrittenBefore(log, t)) || Served(delay, issued, t)
  }

  // ------------------------------------------------------------------ the invariant

  predicate AllTimed(delay: nat, s: Ctrl, q: seq<Transaction>) {
    forall k :: 0 <= k < |q| ==> Timed(delay, s.issued, s.log, q[k])
  }

  predicate WaitOk(clk: nat, a: int, t: Transaction) { t.addr == a && !t.isWrite && t.added <= clk }

  predicate Waiting(s: Ctrl) {
    forall a :: a in s.pendingRd ==> forall k :: 0 <= k < |s.pendingRd[a]| ==> WaitOk(s.clk, a, s.pendingRd[a][k])
  }

  predicate Logged(log: seq<Transaction>, a: int) { exists j :: 0 <= j < |log| && log[j].isWrite && log[j].addr == a }

  predicate Writing(s: Ctrl) { forall a :: a in s.pendingWr ==> Logged(s.log, a) }

  predicate Inv(delay: nat, s: Ctrl) {
    s.halted || (AllTimed(delay, s, s.returnQ) && AllTimed(delay, s, s.returned) && Waiting(s) && Writing(s))
  }

  // What the invariant looks at.
  predicate Alike(s: Ctrl, s': Ctrl) {
    && s'.returnQ == s.returnQ && s'.returned == s.returned && s'.pendingRd == s.pendingRd && s'.pendingWr == s.pendingWr
    && s'.log == s.log && s'.issued == s.issued && s.clk <= s'.clk && (s.halted ==> s'.halted)
  }

  lemma AlikeInv(delay: nat, s: Ctrl, s': Ctrl)
    requires Inv(delay, s) && Alike(s, s')
    ensures Inv(delay, s')
  {
  }

  lemma StillTimed(delay: nat, issued: seq<Issued>, log: seq<Transaction>, e: seq<Issued>, l: seq<Transaction>, t: Transaction)
    requires Timed(delay, issued, log, t)
    ensures Timed(delay, issued + e, log + l, t)
  {
    if Served(delay, issued, t) {
      var i :| 0 <= i < |issued| && issued[i].cmd.IsRead() && issued[i].cmd.hexAddr == t.addr
               && t.added <= issued[i].clk && t.complete == issued[i].clk + delay;
      assert (issued + e)[i] == issued[i];
    }
    if WrittenBefore(log, t) {
      var j :| 0 <= j < |log| && j < t.id && log[j].isWrite && log[j].addr == t.addr;
      assert (log + l)[j] == log[j];
    }
  }

  lemma AllStillTimed(delay: nat, s: Ctrl, s': Ctrl, q: seq<Transaction>, e: seq<Issued>, l: seq<Transaction>)
    requires AllTimed(delay, s, q) && s'.issued == s.issued + e && s'.log == s.log + l
    ensures AllTimed(delay, s', q)
  {
    hide Timed;
    forall k | 0 <= k < |q|
      ensures Timed(delay, s'.issued, s'.log, q[k])
    {
      StillTimed(delay, s.issued, s.log, e, l, q[k]);
    }
  }

  lemma OneMoreTimed(delay: nat, s: Ctrl, q: seq<Transaction>, t: Transaction)
    requires AllTimed(delay, s, q) && Timed(delay, s.issued, s.log, t)
    ensures AllTimed(delay, s, q + [t])
  {
    hide Timed;
  }

  // ------------------------------------------------------------------ arrivals

  lemma LoggedMore(log: seq<Transaction>, t: Transaction, a: int)
    ensures Logged(log, a) ==> Logged(log + [t], a)
    ensures t.isWrite ==> Logged(log + [t], t.addr)
    ensures Logged(log, a) && t.addr == a && t.id == |log| ==> WrittenBefore(log + [t], t)
  {
    if Logged(log, a) {
      var j :| 0 <= j < |log| && log[j].isWrite && log[j].addr == a;
      assert (log + [t])[j] == log[j];
    }
    assert (log + [t])[|log|] == t;
  }

  // The log with a new transaction in it.
  lemma LogOne(delay: nat, s: Ctrl, t: Transaction)
    requires Inv(delay, s) && !s.halted
    ensures var s1 := s.(log := s.log + [t]);
            && Inv(delay, s1) && (t.isWrite ==> Logged(s1.log, t.addr))
            && (t.addr in s.pendingWr && t.id == |s.log| ==> WrittenBefore(s1.log, t))
  {
    hide Timed, Logged, AllTimed;
    var s1 := s.(log := s.log + [t]);
    AllStillTimed(delay, s, s1, s.returnQ, [], [t]);
    AllStillTimed(delay, s, s1, s.returned, [], [t]);
    LoggedMore(s.log, t, t.addr);
    forall a | a in s.pendingWr
      ensures Logged(s1.log, a)
    {
      LoggedMore(s.log, t, a);
    }
  }

  lemma WriteTimed(cfg: Config, delay: nat, s: Ctrl, t: Transaction)
    requires Inv(delay, s) && !s.halted && t.isWrite && t.added == s.clk && Logged(s.log, t.addr)
    ensures Inv(delay, AcceptWrite(cfg, s, t))
  {
    hide Logged;
    assert Timed(delay, s.issued, s.log, t.(complete := s.clk + 1));
    OneMoreTimed(delay, s, s.returnQ, t.(complete := s.clk + 1));
    hide Timed;
  }

  lemma ReadTimed(cfg: Config, delay: nat, s: Ctrl, t: Transaction)
    requires Inv(delay, s) && !s.halted && !t.isWrite && t.added == s.clk
    requires t.addr in s.pendingWr ==> WrittenBefore(s.log, t)
    ensures Inv(delay, AcceptRead(cfg, s, t))
  {
    hide Logged;
    if t.addr in s.pendingWr {
      var t' := t.(data := s.pendingWr[t.addr].data, complete := s.clk + 1);
      assert WrittenBefore(s.log, t');
      assert Timed(delay, s.issued, s.log, t');
      OneMoreTimed(delay, s, s.returnQ, t');
    }
    hide Timed;
  }

  lemma AcceptTimed(cfg: Config, delay: nat, s: Ctrl, addr: int, isWrite: bool, data: int)
    requires Inv(delay, s) && !s.halted
    ensures Inv(delay, Accept(cfg, s, addr, isWrite, data))
  {
    hide Inv, AcceptWrite, AcceptRead, Logged, WrittenBefore;
    var t := Transaction(addr, isWrite, |s.log|, data, s.clk, 0);
    LogOne(delay, s, t);
    var s1 := s.(log := s.log + [t]);
    if isWrite {
      WriteTimed(cfg, delay, s1, t);
    } else {
      ReadTimed(cfg, delay, s1, t);
    }
  }

  // ------------------------------------------------------------------ commands

  lemma AnsweredServed(delay: nat, s: Ctrl, s2: Ctrl, c: Command, waiting: seq<Transaction>, data: int)
    requires c.IsRead() && forall k :: 0 <= k < |waiting| ==> WaitOk(s.clk, c.hexAddr, waiting[k])
    requires s2.issued == s.issued + [Issued(c, s.clk)]
    ensures AllTimed(delay, s2, Answered(waiting, data, s.clk + delay))
  {
    var q := Answered(waiting, data, s.clk + delay);
    forall k | 0 <= k < |q|
      ensures Timed(delay, s2.issued, s2.log, q[k])
    {
      assert WaitOk(s.clk, c.hexAddr, waiting[k]);
      assert s2.issued[|s.issued|] == Issued(c, s.clk);
      assert Served(delay, s2.issued, q[k]);
    }
  }

  lemma JoinTimed(delay: nat, s: Ctrl, p: seq<Transaction>, q: seq<Transaction>)
    requires AllTimed(delay, s, p) && AllTimed(delay, s, q)
    ensures AllTimed(delay, s, p + q)
  {
    hide Timed;
  }

  // The responses to a command, seen from the history that has the command in it.
  lemma DataTimed(cfg: Config, s: Ctrl, c: Command)
    requires Inv(cfg.readDelay, s) && !s.halted
    ensures var s1 := IssueData(cfg, s, c);
            s1.halted || Inv(cfg.readDelay, s1.(issued := s.issued + [Issued(c, s.clk)]))
  {
    hide Timed, Logged, Answered;
    var s1 := IssueData(cfg, s, c);
    var s2 := s1.(issued := s.issued + [Issued(c, s.clk)]);
    if !s1.halted {
      AllStillTimed(cfg.readDelay, s, s2, s.returnQ, [Issued(c, s.clk)], []);
      AllStillTimed(cfg.readDelay, s, s2, s.returned, [Issued(c, s.clk)], []);
      if c.IsRead() {
        AnsweredServed(cfg.readDelay, s, s2, c, s.pendingRd[c.hexAddr], Cell(s.memory, c.hexAddr));
        JoinTimed(cfg.readDelay, s2, s.returnQ, Answered(s.pendingRd[c.hexAddr], Cell(s.memory, c.hexAddr), s.clk + cfg.readDelay));
      }
    }
  }

  lemma IssueTimed(cfg: Config, s: Ctrl, c: Command)
    requires Inv(cfg.readDelay, s) && !s.halted
    ensures Inv(cfg.readDelay, Issue(cfg, s, c))
  {
    hide Inv, IssueData, Apply, StateAccepts;
    DataTimed(cfg, s, c);
    DataKeepsHistory(cfg, s, c);
    var s1 := IssueData(cfg, s, c);
    if s1.halted {
      HaltedInv(cfg.readDelay, s1);
    } else if StateAccepts(s1.channel, c) {
      AlikeInv(cfg.readDelay, s1.(issued := s.issued + [Issued(c, s.clk)]), Issue(cfg, s, c));
    } else {
      HaltedInv(cfg.readDelay, s1.(halted := true));
    }
  }

  lemma DataKeepsHistory(cfg: Config, s: Ctrl, c: Command)
    ensures IssueData(cfg, s, c).issued == s.issued && IssueData(cfg, s, c).clk == s.clk
  {
  }

  lemma HaltedInv(delay: nat, s: Ctrl)
    requires s.halted
    ensures Inv(delay, s)
  {
  }

  lemma IssueStepTimed(cfg: Config, s: Ctrl)
    requires Inv(cfg.readDelay, s) && !s.halted
    ensures Inv(cfg.readDelay, IssueStep(cfg, s))
  {
    hide Inv, Issue, Fetch, FirstPick;
    var (q, pick) := FirstPick(cfg, s.channel, s.queues);
    var s1 := s.(queues := q);
    AlikeInv(cfg.readDelay, s, s1);
    HaltedInv(cfg.readDelay, s1.(halted := true));
    if pick.Chosen? {
      IssueTimed(cfg, s1, pick.cmd);
      var s2 := Issue(cfg, s1, pick.cmd);
      var (q', second) := Fetch(cfg, s2.channel, s2.queues, |s2.queues.lanes|);
      var s3 := s2.(queues := q');
      AlikeInv(cfg.readDelay, s2, s3);
      HaltedInv(cfg.readDelay, s3.(halted := true));
      if !s2.halted && second.Chosen? {
        IssueTimed(cfg, s3, second.cmd);
      }
    }
  }

  lemma ScheduleAlike(cfg: Config, s: Ctrl)
    ensures Alike(s, Schedule(cfg, s)) && Alike(Schedule(cfg, s), EndCycle(Schedule(cfg, s)))
  {
    hide AddCommand, WillAcceptCommand, Draining;
  }

  lemma TickTimed(cfg: Config, s: Ctrl)
    requires Inv(cfg.readDelay, s) && !s.halted
    ensures Inv(cfg.readDelay, Tick(cfg, s))
  {
    hide Inv, IssueStep, Schedule, EndCycle;
    var s1 := TickRefresh(cfg, s);
    AlikeInv(cfg.readDelay, s, s1);
    IssueStepTimed(cfg, s1);
    var s2 := IssueStep(cfg, s1);
    ScheduleAlike(cfg, s2);
    AlikeInv(cfg.readDelay, s2, Schedule(cfg, s2));
    AlikeInv(cfg.readDelay, Schedule(cfg, s2), EndCycle(Schedule(cfg, s2)));
  }

  // ------------------------------------------------------------------ every run

  lemma DeliverTimed(delay: nat, s: Ctrl, at: nat)
    requires Inv(delay, s) && !s.halted
    ensures Inv(delay, Deliver(s, at))
  {
    hide Timed, Logged, WaitOk;
  }

  lemma StepTimed(cfg: Config, s: Ctrl, op: Op)
    requires Inv(cfg.readDelay, s)
    ensures Inv(cfg.readDelay, Step(cfg, s, op))
  {
    hide Inv, Tick, Accept, Deliver;
    if !s.halted {
      match op {
        case OpAccept(addr, isWrite, data) => AcceptTimed(cfg, cfg.readDelay, s, addr, isWrite, data);
        case OpTick => TickTimed(cfg, s);
        case OpDeliver(at) => DeliverTimed(cfg.readDelay, s, at);
      }
    }
  }

  lemma {:induction false} RunTimed(cfg: Config, ops: seq<Op>)
    ensures Inv(cfg.readDelay, Run(cfg, Init(cfg), ops))
  {
    hide Step;
    if ops != [] {
      RunTimed(cfg, ops[..|ops| - 1]);
      StepTimed(cfg, Run(cfg, Init(cfg), ops[..|ops| - 1]), ops[|ops| - 1]);
    }
  }

  lemma DeliverFirst(s: Ctrl, at: nat)
    ensures var s' := Deliver(s, at);
            if s'.returned == s.returned then s' == s && forall k :: 0 <= k < |s.returnQ| ==> at < s.returnQ[k].complete
            else |s'.returned| == |s.returned| + 1 && s'.returned[..|s.returned|] == s.returned
                 && s'.returned[|s.returned|] in s.returnQ && s'.returned[|s.returned|].complete <= at
  {
    var i := FirstDone(s.returnQ, at);
    if i < |s.returnQ| {
      assert (s.returned + [s.returnQ[i]])[|s.returned|] == s.returnQ[i];
    }
  }

  // On every run whatever has been returned was due by the history: a write one cycle
  // after it came; a read readDelay after a read command of its address that went out
  // since it came, or one cycle after it came if a write of its address came before it.
  lemma ReturnedOnTime(cfg: Config, ops: seq<Op>, k: nat)
    requires RunsOk(cfg) && k < |Run(cfg, Init(cfg), ops).returned|
    ensures var s := Run(cfg, Init(cfg), ops); Timed(cfg.readDelay, s.issued, s.log, s.returned[k])
  {
    hide Run, Init, Timed;
    RunTimed(cfg, ops);
    RunSound(cfg, ops);
    NotHalted(cfg, Run(cfg, Init(cfg), ops));
  }

  lemma NotHalted(cfg: Config, s: Ctrl)
    requires Sound(cfg, s)
    ensures !s.halted
  {
  }

  // A call for responses at a time returns one that is due by then, and nothing only if
  // none is.
  lemma ReturnsWhenDue(cfg: Config, ops: seq<Op>, at: nat)
    requires RunsOk(cfg)
    ensures var s, s' := Run(cfg, Init(cfg), ops), Run(cfg, Init(cfg), ops + [OpDeliver(at)]);
            if s'.returned == s.returned then forall k :: 0 <= k < |s.returnQ| ==> at < s.returnQ[k].complete
            else |s'.returned| == |s.returned| + 1 && s'.returned[..|s.returned|] == s.returned
                 && s'.returned[|s.returned|].complete <= at
  {
    hide Deliver, Init, RunsOk, Sound, Tick, Accept;
    var s := Run(cfg, Init(cfg), ops);
    RunSound(cfg, ops);
    NotHalted(cfg, s);
    DeliverFirst(s, at);
    assert (ops + [OpDeliver(at)])[..|ops|] == ops;
  }

  // With the delay of the configuration, a served read is due with the last data of its
  // burst.
  lemma ServedIsDataEnd(p: Params, issued: seq<Issued>, t: Transaction)
    requires 0 <= p.AL + p.CL + p.burst && Served(p.AL + p.CL + p.burst, issued, t)
    ensures exists i :: 0 <= i < |issued| && issued[i].cmd.IsRead() && issued[i].cmd.hexAddr == t.addr
                        && t.added <= issued[i].clk && t.complete == D.DataEnd(p, issued[i])
  {
    var i :| 0 <= i < |issued| && issued[i].cmd.IsRead() && issued[i].cmd.hexAddr == t.addr
             && t.added <= issued[i].clk && t.complete == issued[i].clk + (p.AL + p.CL + p.burst);
    assert t.complete == D.DataEnd(p, issued[i]);
  }
}
