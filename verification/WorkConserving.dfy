// The controller is idle only when nothing may go, and looks at its command queues in
// turn: which entries may go is read off history and queues, as in RowPolicy.
module WorkConserving {
  import opened Basics
  import opened DramTypes
  import opened Banks
  import opened ChannelSpec
  import opened CommandHistory
  import opened QueueSpec
  import opened RefreshSpec
  import opened ControllerSpec
  import opened QueueSafety
  import opened ControllerSafety
  import opened ControllerRuns
  import opened ControllerTheorems
  import opened BankRefreshGap
  import opened RowPolicy
  import opened RefreshBound

  // ------------------------------------------------------------------ in turn

  predicate Fenced(q: Queues, l: int) { q.inRef && l in q.refLanes }

  // The queue that is j places behind the one visited last.
  function Turn(q: Queues, j: nat): int
    requires |q.lanes| > 0
  {
    (q.next + j) % |q.lanes|
  }

  // A visit to the queue gives nothing.
  predicate PassedOver(cfg: Config, ch: Channel, q: Queues, l: int) {
    0 <= l < |q.lanes| && (Fenced(q, l) || FirstReady(cfg, ch, q.lanes[l], q.clk, 0).Nothing?)
  }

  lemma NextTurn(q: Queues, j: nat)
    requires 0 <= q.next < |q.lanes|
    ensures Turn(NextLane(q), j) == Turn(q, j + 1)
    ensures 0 <= NextLane(q).next < |q.lanes| && NextLane(q).next == Turn(q, 1) == Turn(NextLane(q), 0)
    ensures 0 <= Turn(q, j) < |q.lanes|
  {
    var n := |q.lanes|;
    if q.next + 1 == n {
      Quotient(n, n, 1, 0);
      Quotient(q.next + j + 1, n, j / n + 1, j % n);
    }
  }

  lemma SameVisit(cfg: Config, ch: Channel, q: Queues, q1: Queues, l: int)
    requires q1 == q.(next := q1.next)
    ensures PassedOver(cfg, ch, q1, l) <==> PassedOver(cfg, ch, q, l)
  {
  }

  // k queues are passed over, and then the next one in turn gives the command.
  ghost predicate Visited(cfg: Config, ch: Channel, q: Queues, n: nat, pick: Pick, k: nat)
    requires |q.lanes| > 0
  {
    && (forall j :: 1 <= j <= k ==> PassedOver(cfg, ch, q, Turn(q, j)))
    && (if pick.Nothing? then k == n
        else k < n && 0 <= Turn(q, k + 1) < |q.lanes| && !Fenced(q, Turn(q, k + 1))
             && !FirstReady(cfg, ch, q.lanes[Turn(q, k + 1)], q.clk, 0).Nothing?
             && (pick.Chosen? ==> FirstReady(cfg, ch, q.lanes[Turn(q, k + 1)], q.clk, 0) == pick))
  }

  lemma LaterTurns(cfg: Config, ch: Channel, q: Queues, n: nat, pick: Pick, k: nat)
    requires 0 <= q.next < |q.lanes| && PassedOver(cfg, ch, q, Turn(q, 1)) && Visited(cfg, ch, NextLane(q), n, pick, k)
    ensures Visited(cfg, ch, q, n + 1, pick, k + 1)
  {
    hide FirstReady, PassedOver, Turn;
    var q1 := NextLane(q);
    forall j: nat | 1 <= j <= k + 1
      ensures PassedOver(cfg, ch, q, Turn(q, j))
    {
      if j > 1 {
        NextTurn(q, j - 1);
        SameVisit(cfg, ch, q, q1, Turn(q, j));
        assert PassedOver(cfg, ch, q1, Turn(q1, j - 1));
      }
    }
    NextTurn(q, k + 1);
  }

  lemma TakePick(cfg: Config, q: Queues, c: Command)
    ensures var pick := Take(cfg, q, c).1; pick == Chosen(c) || pick.Crash?
  {
  }

  // Fetching goes round the queues from the one after the last visited, once each.
  lemma {:induction false} FetchVisits(cfg: Config, ch: Channel, q: Queues, n: nat) returns (k: nat)
    requires 0 <= q.next < |q.lanes|
    ensures Visited(cfg, ch, q, n, Fetch(cfg, ch, q, n).1, k)
    decreases n
  {
    hide FirstReady, Turn, Take;
    k := 0;
    if n > 0 {
      NextTurn(q, 0);
      var q1 := NextLane(q);
      SameVisit(cfg, ch, q, q1, q1.next);
      if Fenced(q1, q1.next) || FirstReady(cfg, ch, q1.lanes[q1.next], q1.clk, 0).Nothing? {
        var k1 := FetchVisits(cfg, ch, q1, n - 1);
        LaterTurns(cfg, ch, q, n - 1, Fetch(cfg, ch, q1, n - 1).1, k1);
        k := k1 + 1;
      } else if FirstReady(cfg, ch, q1.lanes[q1.next], q1.clk, 0).Chosen? {
        TakePick(cfg, q1, FirstReady(cfg, ch, q1.lanes[q1.next], q1.clk, 0).cmd);
      }
    }
  }

  lemma InTurn(q: Queues, l: nat) returns (j: nat)
    requires 0 <= q.next < |q.lanes| && l < |q.lanes|
    ensures 1 <= j <= |q.lanes| && Turn(q, j) == l
  {
    j := if l > q.next then l - q.next else l + |q.lanes| - q.next;
    if l <= q.next {
      Quotient(q.next + j, |q.lanes|, 1, l);
    }
  }

  lemma AllPassedOver(cfg: Config, ch: Channel, q: Queues, l: nat)
    requires 0 <= q.next < |q.lanes| && l < |q.lanes| && Fetch(cfg, ch, q, |q.lanes|).1.Nothing?
    ensures PassedOver(cfg, ch, q, l)
  {
    var k := FetchVisits(cfg, ch, q, |q.lanes|);
    var j := InTurn(q, l);
    hide FirstReady, Turn, Fetch, PassedOver;
    assert PassedOver(cfg, ch, q, Turn(q, j));
  }

  // ------------------------------------------------------------------ idle

  // The bank waits for the refresh: it or its rank is the one to be refreshed. With a
  // queue for each rank a bank's refresh holds up its rank.
  predicate WaitsFor(cfg: Config, ref: Command, id: BankId) {
    if cfg.perBank && ref.kind == RefreshBank then id == ref.Bank() else id.rank == ref.addr.rank
  }

  lemma FencedWaits(cfg: Config, ref: Command, id: BankId)
    requires RequestOk(cfg, ref) && cfg.ValidBank(id) && LaneOf(cfg, id) in RefLanes(cfg, ref)
    ensures WaitsFor(cfg, ref, id)
  {
    if cfg.perBank && ref.kind == Refresh {
      LaneRank(cfg, id);
    } else if ref.kind == RefreshBank {
      OwnLane(cfg, id, ref.Bank());
    }
  }

  lemma SoundFence(cfg: Config, s: Ctrl)
    requires Sound(cfg, s)
    ensures s.queues.inRef ==>
              s.channel.refreshQ != [] && RequestOk(cfg, s.channel.refreshQ[0]) && s.queues.refLanes == RefLanes(cfg, s.channel.refreshQ[0])
    ensures s.queues.clk == s.clk && !s.halted && (s.queues.lanes != [] ==> 0 <= s.queues.next < |s.queues.lanes|)
  {
    hide RefLanes;
  }

  // In a sound state a fetch yields nothing only if no entry may go except those that
  // wait for the oldest refresh.
  lemma FetchConserves(cfg: Config, s: Ctrl, l: nat, i: nat)
    requires ConfigOk(cfg) && Sound(cfg, s) && HitsAgree(s) && l < |s.queues.lanes| && i < |s.queues.lanes[l]|
    requires Fetch(cfg, s.channel, s.queues, |s.queues.lanes|).1.Nothing? && Selectable(cfg, s, s.queues.lanes[l], i)
    ensures s.channel.refreshQ != [] && WaitsFor(cfg, s.channel.refreshQ[0], s.queues.lanes[l][i].Bank())
  {
    SoundFence(cfg, s);
    PlacedAt(cfg, s, l, i);
    hide Fetch, FirstReady, Sound, HitsAgree, Selectable, RefLanes, LaneOf, WaitsFor;
    AllPassedOver(cfg, s.channel, s.queues, l);
    if Fenced(s.queues, l) {
      FencedWaits(cfg, s.channel.refreshQ[0], s.queues.lanes[l][i].Bank());
    } else {
      FirstSelectable(cfg, s, l, 0);
      assert false;
    }
  }

  lemma RequeuedAlike(cfg: Config, s: Ctrl, s1: Ctrl, lane: seq<Command>, i: nat)
    requires i < |lane| && Selectable(cfg, s, lane, i) && !lane[i].IsRankCommand()
    requires s1.channel == s.channel.(refreshQ := s1.channel.refreshQ) && s1.clk == s.clk && s1.issued == s.issued
    ensures Selectable(cfg, s1, lane, i)
  {
    hide MayClose, BehindRead, ActivationWindowOk;
    SameReady(cfg, s.channel, s1.channel, lane[i], s.clk);
    hide GetReady;
  }

  lemma SameReady(cfg: Config, ch: Channel, ch1: Channel, c: Command, clk: nat)
    requires ch1 == ch.(refreshQ := ch1.refreshQ) && !c.IsRankCommand()
    ensures GetReady(cfg, ch1, c, clk) == GetReady(cfg, ch, c, clk)
  {
  }

  lemma IssuesOrHalts(cfg: Config, s: Ctrl, c: Command)
    ensures Issue(cfg, s, c).halted || Issue(cfg, s, c).issued == s.issued + [Issued(c, s.clk)]
  {
    hide Apply, StateAccepts, IssueData;
    DataKeepsHistory(cfg, s, c);
  }

  lemma IdlePick(cfg: Config, s: Ctrl)
    requires RunsOk(cfg) && Sound(cfg, s) && IssueStep(cfg, s).issued == s.issued
    ensures FirstPick(cfg, s.channel, s.queues).1.Nothing? && IssueStep(cfg, s).channel == s.channel
  {
    hide Fetch, FirstPick, Sound, Issue;
    IssueStepSound(cfg, s);
    FirstPickSound(cfg, s);
    NotHaltedNow(cfg, IssueStep(cfg, s));
    var (q, pick) := FirstPick(cfg, s.channel, s.queues);
    if pick.Chosen? {
      var s1 := s.(queues := q);
      IssuesOrHalts(cfg, s1, pick.cmd);
      var s2 := Issue(cfg, s1, pick.cmd);
      if !s2.halted && cfg.dualCommand {
        var tail := SecondAdds(cfg, s2, pick.cmd);
      }
    }
  }

  lemma NotHaltedNow(cfg: Config, s: Ctrl)
    requires Sound(cfg, s)
    ensures !s.halted
  {
  }

  // The state whose queues are fetched from when nothing comes of the refresh.
  lemma IdleFetch(cfg: Config, s: Ctrl) returns (q: Queues)
    requires RunsOk(cfg) && Sound(cfg, s) && HitsAgree(s) && FirstPick(cfg, s.channel, s.queues).1.Nothing?
    ensures Sound(cfg, s.(queues := q)) && HitsAgree(s.(queues := q)) && q.lanes == s.queues.lanes
    ensures Fetch(cfg, s.channel, q, |q.lanes|).1.Nothing?
  {
    hide Fetch, FinishRefresh, Sound, HitsAgree, Safe;
    q := s.queues;
    assert s.(queues := q) == s;
    if s.channel.refreshQ != [] {
      RefreshStepSound(cfg, s);
      SoundSafe(cfg, s);
      FinishRefreshMeaning(cfg, s);
      q := FinishRefresh(cfg, s.channel, s.queues).0;
      SameCounts(s, s.(queues := q));
    }
  }

  lemma SoundSafe(cfg: Config, s: Ctrl)
    requires Sound(cfg, s)
    ensures Safe(cfg, s)
  {
  }

  lemma IdleStep(cfg: Config, s: Ctrl, l: nat, i: nat)
    requires RunsOk(cfg) && Sound(cfg, s) && HitsAgree(s) && l < |s.queues.lanes| && i < |s.queues.lanes[l]|
    requires IssueStep(cfg, s).issued == s.issued && Selectable(cfg, s, s.queues.lanes[l], i)
    ensures s.channel.refreshQ != [] && WaitsFor(cfg, s.channel.refreshQ[0], s.queues.lanes[l][i].Bank())
    ensures IssueStep(cfg, s).channel == s.channel
  {
    hide Fetch, FirstPick, Sound, HitsAgree, Selectable, WaitsFor, IssueStep;
    IdlePick(cfg, s);
    var q := IdleFetch(cfg, s);
    var s1 := s.(queues := q);
    assert s1.channel == s.channel.(refreshQ := s1.channel.refreshQ);
    PlacedAt(cfg, s, l, i);
    RequeuedAlike(cfg, s, s1, s.queues.lanes[l], i);
    FetchConserves(cfg, s1, l, i);
  }

  // A cycle of a run that issues nothing leaves no entry that may go, except those that
  // wait for the oldest refresh request.
  lemma IdleOnlyIfNothingGoes(cfg: Config, ops: seq<Op>, l: nat, i: nat)
    requires RunsOk(cfg) && l < |Run(cfg, Init(cfg), ops).queues.lanes| && i < |Run(cfg, Init(cfg), ops).queues.lanes[l]|
    requires Run(cfg, Init(cfg), ops + [OpTick]).issued == Run(cfg, Init(cfg), ops).issued
    requires Selectable(cfg, Run(cfg, Init(cfg), ops), Run(cfg, Init(cfg), ops).queues.lanes[l], i)
    ensures var s, s' := Run(cfg, Init(cfg), ops), Run(cfg, Init(cfg), ops + [OpTick]);
            s'.channel.refreshQ != [] && WaitsFor(cfg, s'.channel.refreshQ[0], s.queues.lanes[l][i].Bank())
  {
    hide *;
    RunSound(cfg, ops);
    RunCounts(cfg, ops);
    var s := Run(cfg, Init(cfg), ops);
    LastTick(cfg, ops);
    RunsConfigOk(cfg);
    TickRefreshSound(cfg, s);
    NotHaltedNow(cfg, s);
    var s1 := TickRefresh(cfg, s);
    RefreshedAlike(cfg, s);
    PlacedAt(cfg, s, l, i);
    RequeuedAlike(cfg, s, s1, s.queues.lanes[l], i);
    SameCounts(s, s1);
    TickIssues(cfg, s);
    IdleStep(cfg, s1, l, i);
    TickChannel(cfg, s);
  }

  lemma RunsConfigOk(cfg: Config)
    requires RunsOk(cfg)
    ensures ConfigOk(cfg)
  {
  }

  lemma LastTick(cfg: Config, ops: seq<Op>)
    ensures var s := Run(cfg, Init(cfg), ops); !s.halted ==> Run(cfg, Init(cfg), ops + [OpTick]) == Tick(cfg, s)
  {
    assert (ops + [OpTick])[..|ops|] == ops;
    hide Tick, Init;
  }

  lemma RefreshedAlike(cfg: Config, s: Ctrl)
    ensures var s1 := TickRefresh(cfg, s);
            s1.channel == s.channel.(refreshQ := s1.channel.refreshQ) && s1.clk == s.clk && s1.issued == s.issued
            && s1.channel.banks == s.channel.banks && s1.queues == s.queues
  {
    hide Requests, Due, TickGenerator;
  }

  lemma TickIssues(cfg: Config, s: Ctrl)
    ensures Tick(cfg, s).issued == IssueStep(cfg, TickRefresh(cfg, s)).issued
  {
    hide IssueStep, Schedule, TickRefresh;
    ScheduleKeepsChannel(cfg, IssueStep(cfg, TickRefresh(cfg, s)));
  }

  lemma TickChannel(cfg: Config, s: Ctrl)
    ensures Tick(cfg, s).channel == IssueStep(cfg, TickRefresh(cfg, s)).channel
  {
    hide IssueStep, Schedule, TickRefresh;
    ScheduleKeepsChannel(cfg, IssueStep(cfg, TickRefresh(cfg, s)));
  }
}
