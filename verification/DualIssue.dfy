// When the second fetch of a dual-command cycle loses a command, and the refresh
// bound on runs from power-up with the tables of timing.cc.
module DualIssue {
  import opened Basics
  import opened DramTypes
  import opened Banks
  import opened ChannelSpec
  import opened CommandHistory
  import opened QueueSpec
  import opened ControllerSpec
  import opened QueueSafety
  import opened ControllerSafety
  import opened Census
  import opened Servicing
  import opened PlainMemory
  import opened ControllerRuns
  import opened ControllerTheorems
  import opened RefreshBound
  import opened TimingTables
  import opened TimingFacts

  // The second fetch returns a column command after a first one. The fetch has
  // taken it off its queue and the cycle does not issue it.
  predicate Loses(cfg: Config, s: Ctrl, first: Command) {
    var pick := Fetch(cfg, s.channel, s.queues, |s.queues.lanes|).1;
    pick.Chosen? && pick.cmd.IsReadWrite() && first.IsReadWrite()
  }

  // A pending transaction that is in no queue.
  predicate Orphaned(p: Parts, k: Key) {
    k in PendingKeys(p) && AllLaneKeys(p.lanes)[k] + WaitingKeys(p)[k] == 0
  }

  lemma TakenIsOrphaned(p: Parts, l: nat, i: nat)
    requires Counted(p) && l < |p.lanes| && i < |p.lanes[l]|
    ensures Orphaned(TakeParts(p, l, i), KeyOf(p.lanes[l][i]))
  {
    var k := KeyOf(p.lanes[l][i]);
    LanesMember(p.lanes, l, i);
    CountedOnce(p, k);
    TakenCounted(p, l, i);
  }

  lemma OrphanBreaksCount(p: Parts, k: Key)
    requires Orphaned(p, k)
    ensures !Counted(p)
  {
    if Counted(p) {
      CountedOnce(p, k);
    }
  }

  lemma LostCommand(cfg: Config, s: Ctrl, first: Command)
    requires ConfigOk(cfg) && Sound(cfg, s) && Loses(cfg, s, first)
    ensures var c := Fetch(cfg, s.channel, s.queues, |s.queues.lanes|).1.cmd;
            Orphaned(PartsOf(SecondCommand(cfg, s, first)), KeyOf(c))
  {
    var l, i := FetchSafe(cfg, s);
    var (q, pick) := Fetch(cfg, s.channel, s.queues, |s.queues.lanes|);
    TakenIsOrphaned(PartsOf(s), l, i);
    assert PartsOf(s.(queues := q)) == TakeParts(PartsOf(s), l, i);
  }

  lemma NothingLost(cfg: Config, s: Ctrl, first: Command)
    requires ConfigOk(cfg) && Sound(cfg, s) && !Loses(cfg, s, first)
    ensures Sound(cfg, SecondCommand(cfg, s, first))
  {
    hide Sound, Fetch, Issue, ConfigOk, Safe, ChosenFrom, Issuable;
    SoundSafe(cfg, s);
    var l, i := FetchSafe(cfg, s);
    var (q, pick) := Fetch(cfg, s.channel, s.queues, |s.queues.lanes|);
    if pick.Chosen? && pick.cmd.IsReadWrite() != first.IsReadWrite() {
      IssueFetched(cfg, s, q, pick.cmd, l, i);
    } else {
      RequeueSound(cfg, s, q);
    }
  }

  lemma SoundSafe(cfg: Config, s: Ctrl)
    requires Sound(cfg, s)
    ensures Safe(cfg, s)
  {
  }

  // The second half of a dual-command cycle keeps every pending transaction
  // queued exactly when it does not fetch a column command after one.
  lemma DualIssueLosesIff(cfg: Config, s: Ctrl, first: Command)
    requires ConfigOk(cfg) && Sound(cfg, s)
    ensures Sound(cfg, SecondCommand(cfg, s, first)) <==> !Loses(cfg, s, first)
    ensures Loses(cfg, s, first) <==> exists k :: Orphaned(PartsOf(SecondCommand(cfg, s, first)), k)
  {
    var p' := PartsOf(SecondCommand(cfg, s, first));
    if Loses(cfg, s, first) {
      LostCommand(cfg, s, first);
    } else {
      NothingLost(cfg, s, first);
    }
    forall k | Orphaned(p', k)
      ensures !Counted(p')
    {
      OrphanBreaksCount(p', k);
    }
  }

  // With the tables of timing.cc no run loses a command, whatever the protocol,
  // as long as the numbers below hold where dual command issue is on.
  lemma NamedParametersSuffice(p: Params, cfg: Config, ops: seq<Op>)
    requires ConfigOk(cfg) && cfg.tables == TablesOf(p)
    requires cfg.dualCommand ==> PositiveGaps(p, cfg)
    ensures Sound(cfg, Run(cfg, Init(cfg), ops))
  {
    ColumnGapsIff(p, cfg);
    RunSound(cfg, ops);
  }

  // From power-up: once the oldest request of a run is a rank refresh with n banks
  // of its rank open, and the tables are those of timing.cc, the refresh goes out
  // no later than the deadline computed from the banks' own times.
  lemma RefreshGoesOut(p: Params, cfg: Config, before: seq<Op>, after: seq<Op>, ref: Command, n: nat, pre: nat, re: nat)
    returns (i: nat)
    requires RunsOk(cfg) && cfg.tables == TablesOf(p)
    requires Converging(Run(cfg, Init(cfg), before).channel, ref, n, pre, re)
    requires var s := Run(cfg, Init(cfg), before);
             s.clk + Ticks(after) > Deadline(s.clk, n, pre, re, PrechargeStep(p), Max(1, p.tRP))
    ensures var s := Run(cfg, Init(cfg), before);
            RefreshedAt(Run(cfg, s, after).issued, |s.issued|, ref.addr.rank,
                        Deadline(s.clk, n, pre, re, PrechargeStep(p), Max(1, p.tRP)), i)
  {
    RunSound(cfg, before);
    TablesBoundRefresh(p, cfg);
    var done, j, n', pre', re' := RefreshWithinBound(cfg, Run(cfg, Init(cfg), before), ref, n, pre, re,
                                                      PrechargeStep(p), Max(1, p.tRP), after);
    i := j;
  }

  lemma {:induction false} BankTimes(banks: map<BankId, BankState>, ids: set<BankId>) returns (pre: nat, re: nat)
    requires ids <= banks.Keys
    ensures forall id :: id in ids ==> banks[id].times[Precharge] <= pre && banks[id].times[Refresh] <= re
  {
    pre, re := 0, 0;
    if ids != {} {
      var id :| id in ids;
      var pre', re' := BankTimes(banks, ids - {id});
      pre, re := Max(pre', banks[id].times[Precharge]), Max(re', banks[id].times[Refresh]);
    }
  }

  // Whenever a rank refresh is the oldest request, the banks' own times give a deadline.
  lemma DeadlineExists(ch: Channel) returns (n: nat, pre: nat, re: nat)
    requires ch.refreshQ != [] && ch.refreshQ[0].kind == Refresh
    ensures Converging(ch, ch.refreshQ[0], n, pre, re)
  {
    n := |OpenBanks(ch, ch.refreshQ[0].addr.rank)|;
    pre, re := BankTimes(ch.banks, ch.banks.Keys);
  }
}
