// Single cycles of the controller whose picks are known.
module ControllerSteps {
  import opened DramTypes
  import opened Banks
  import opened ChannelSpec
  import opened CommandHistory
  import opened QueueSpec
  import opened RefreshSpec
  import opened ControllerSpec
  import opened ControllerSafety
  import opened Census
  import opened PlainMemory
  import opened ControllerRuns

  // A cycle without a refresh request.
  predicate NoRefresh(cfg: Config, s: Ctrl) { !s.halted && !Due(cfg, s.refresh) && s.channel.refreshQ == [] }

  function Aged(cfg: Config, s: Ctrl): Ctrl { s.(refresh := TickGenerator(cfg, s.refresh)) }

  // Nothing is ready.
  lemma TickNothing(cfg: Config, s: Ctrl, q: Queues)
    requires NoRefresh(cfg, s) && Fetch(cfg, s.channel, s.queues, |s.queues.lanes|) == (q, Nothing)
    ensures Tick(cfg, s) == EndCycle(Schedule(cfg, Aged(cfg, s).(queues := q)))
  {
    hide Fetch, Schedule;
  }

  // A command that is not a column command goes out, and nothing after it.
  function Sent(cfg: Config, s: Ctrl, c: Command): Ctrl
    requires StateAccepts(s.channel, c)
  {
    s.(channel := Apply(cfg, s.channel, c, s.clk), issued := s.issued + [Issued(c, s.clk)])
  }

  lemma IssueSends(cfg: Config, s: Ctrl, c: Command)
    requires !s.halted && !c.IsReadWrite() && StateAccepts(s.channel, c)
    ensures Issue(cfg, s, c) == Sent(cfg, s, c) && !Sent(cfg, s, c).halted
  {
    hide Apply, StateAccepts;
  }

  lemma TickSends(cfg: Config, s: Ctrl, q: Queues, c: Command, q': Queues)
    requires NoRefresh(cfg, s) && Fetch(cfg, s.channel, s.queues, |s.queues.lanes|) == (q, Chosen(c))
    requires !c.IsReadWrite() && StateAccepts(s.channel, c)
    requires cfg.dualCommand ==> Fetch(cfg, Apply(cfg, s.channel, c, s.clk), q, |q.lanes|) == (q', Nothing)
    requires !cfg.dualCommand ==> q' == q
    ensures Tick(cfg, s) == EndCycle(Schedule(cfg, Sent(cfg, Aged(cfg, s), c).(queues := q')))
  {
    hide Fetch, Schedule, Apply, StateAccepts, Issue;
    IssueSends(cfg, Aged(cfg, s).(queues := q), c);
  }

  // With one queue for reads and writes, the head moves to its lane.
  lemma ScheduleHead(cfg: Config, s: Ctrl, t: Transaction, rest: seq<Transaction>)
    requires cfg.unified && s.unifiedQ == [t] + rest && WillAcceptCommand(cfg, s.queues, TransToCommand(cfg, t).Bank())
    ensures Schedule(cfg, s) == s.(unifiedQ := rest, queues := AddCommand(cfg, s.queues, TransToCommand(cfg, t)))
  {
    hide AddCommand, WillAcceptCommand;
  }

  lemma ScheduleNone(cfg: Config, s: Ctrl)
    requires cfg.unified && s.unifiedQ == []
    ensures Schedule(cfg, s) == s
  {
  }

  // Such a cycle keeps a sound state sound, whatever the timing.
  lemma QuietTickSound(cfg: Config, s: Ctrl)
    requires ConfigOk(cfg) && Sound(cfg, s) && s.channel.refreshQ == [] && !Due(cfg, s.refresh)
    requires var pick := Fetch(cfg, s.channel, s.queues, |s.queues.lanes|).1; pick.Chosen? ==> !pick.cmd.IsReadWrite()
    ensures Sound(cfg, Tick(cfg, s))
  {
    hide Sound, Fetch, Schedule, Issue, ConfigOk, SecondCommand, PartsOf, BooksOf;
    var s1 := TickRefresh(cfg, s);
    TickRefreshSound(cfg, s);
    var (q, pick) := Fetch(cfg, s.channel, s.queues, |s.queues.lanes|);
    FetchKeepsSound(cfg, s1);
    if pick.Chosen? && cfg.dualCommand {
      SecondSound(cfg, Issue(cfg, s1.(queues := q), pick.cmd), pick.cmd);
    }
    var s2 := IssueStep(cfg, s1);
    ScheduleSound(cfg, s2);
    EndCycleSound(cfg, Schedule(cfg, s2));
    RunningIf(cfg, s2);
    RunningIf(cfg, s);
  }

  lemma RunningIf(cfg: Config, s: Ctrl)
    requires Sound(cfg, s)
    ensures !s.halted
  {
  }

  lemma FetchKeepsSound(cfg: Config, s: Ctrl)
    requires ConfigOk(cfg) && Sound(cfg, s)
    ensures var (q, pick) := Fetch(cfg, s.channel, s.queues, |s.queues.lanes|);
            && !pick.Crash? && (pick.Nothing? ==> Sound(cfg, s.(queues := q)))
            && (pick.Chosen? ==> Sound(cfg, Issue(cfg, s.(queues := q), pick.cmd)))
  {
    hide Fetch, Issue, ConfigOk, Queued, Faithful, PartsOf, BooksOf;
    var l, i := FetchSafe(cfg, s);
    var (q, pick) := Fetch(cfg, s.channel, s.queues, |s.queues.lanes|);
    if pick.Nothing? {
      RequeueSound(cfg, s, q);
    } else {
      IssueFetched(cfg, s, q, pick.cmd, l, i);
    }
  }

  lemma EndCycleSound(cfg: Config, s: Ctrl)
    requires Sound(cfg, s)
    ensures Sound(cfg, EndCycle(s))
  {
    EndCycleSafe(cfg, s);
    assert PartsOf(EndCycle(s)) == PartsOf(s) && BooksOf(EndCycle(s)) == BooksOf(s);
  }
}
