// The controller's hardware side is safe on every run: no exit of the bank
// state machine is reached and every issued command follows the protocol.
module ControllerSafety {
  import opened Basics
  import opened DramTypes
  import opened Banks
  import opened ChannelSpec
  import opened CommandHistory
  import opened QueueSpec
  import opened RefreshSpec
  import opened ControllerSpec
  import opened QueueSafety

  ghost predicate ConfigOk(cfg: Config) {
    && cfg.DecodesInRange()
    && 0 < cfg.ranks && 0 < cfg.bankgroups && 0 < cfg.banksPerGroup
    && 0 < cfg.refreshInterval
  }

  predicate RequestOk(cfg: Config, c: Command) {
    && c.IsRefresh()
    && (c.kind == Refresh ==> cfg.ValidRank(c.addr.rank))
    && (c.kind == RefreshBank ==> cfg.ValidBank(c.Bank()))
  }

  predicate GeneratorOk(cfg: Config, g: Generator) {
    g.rank < cfg.ranks && g.bankgroup < cfg.bankgroups && g.bank < cfg.banksPerGroup
  }

  // While a refresh is being prepared, the fenced lanes are those of the oldest request.
  predicate FenceOk(cfg: Config, refreshQ: seq<Command>, q: Queues) {
    if q.inRef then refreshQ != [] && q.refLanes == RefLanes(cfg, refreshQ[0]) else q.refLanes == {}
  }

  ghost predicate RefreshOk(cfg: Config, ch: Channel, g: Generator) {
    && GeneratorOk(cfg, g)
    && ch.selfRefreshing == {}
    && forall i :: 0 <= i < |ch.refreshQ| ==> RequestOk(cfg, ch.refreshQ[i])
  }

  predicate ClockOk(issued: seq<Issued>, clk: nat) {
    issued != [] ==> issued[|issued| - 1].clk <= clk
  }

  ghost predicate Safe(cfg: Config, s: Ctrl) {
    && !s.halted
    && Agrees(cfg, s.issued, s.channel)
    && ClockOk(s.issued, s.clk)
    && s.queues.clk == s.clk
    && QueuesOk(cfg, s.queues)
    && RefreshOk(cfg, s.channel, s.refresh)
    && FenceOk(cfg, s.channel.refreshQ, s.queues)
  }

  lemma AgreesIsOk(cfg: Config, h: seq<Issued>, ch: Channel)
    requires Agrees(cfg, h, ch)
    ensures ChannelOk(cfg, ch)
  {
    forall id | id in ch.banks
      ensures ch.banks[id].status != SelfRefresh
    {
      assert RowAgrees(h, id, ch.banks[id]);
    }
  }

  // ------------------------------------------------------- refresh requests

  lemma FirstAwakeIsZero(ranks: nat)
    requires 0 < ranks
    ensures FirstAwake(ranks, {}, 0) == Some(0)
  {
  }

  lemma RequestsAreOk(cfg: Config, g: Generator)
    requires ConfigOk(cfg) && GeneratorOk(cfg, g)
    ensures |Requests(cfg, g, {})| == 1 && RequestOk(cfg, Requests(cfg, g, {})[0])
  {
    FirstAwakeIsZero(cfg.ranks);
  }

  lemma AdvanceIsOk(cfg: Config, g: Generator)
    requires ConfigOk(cfg) && GeneratorOk(cfg, g)
    ensures GeneratorOk(cfg, TickGenerator(cfg, g))
  {
  }

  // Apart from the refresh queue a channel's history agreement looks at nothing
  // that a new request changes.
  lemma QueueingKeepsAgreement(cfg: Config, h: seq<Issued>, ch: Channel, q: seq<Command>)
    requires Agrees(cfg, h, ch)
    ensures Agrees(cfg, h, ch.(refreshQ := q))
  {
    assert WindowsAgree(cfg, h, ch.(refreshQ := q));
  }

  lemma RequestsQueue(cfg: Config, g: Generator, ch: Channel)
    requires ConfigOk(cfg) && RefreshOk(cfg, ch, g)
    ensures var ch' := TickRequests(cfg, g, ch);
            && ch' == ch.(refreshQ := ch'.refreshQ) && ch.refreshQ <= ch'.refreshQ
            && RefreshOk(cfg, ch', TickGenerator(cfg, g))
  {
    hide TickGenerator, GeneratorOk, RequestOk, Requests;
    AdvanceIsOk(cfg, g);
    RequestsAreOk(cfg, g);
  }

  lemma FenceKept(cfg: Config, refreshQ: seq<Command>, refreshQ': seq<Command>, q: Queues)
    requires FenceOk(cfg, refreshQ, q) && refreshQ <= refreshQ'
    ensures FenceOk(cfg, refreshQ', q)
  {
  }

  lemma TickRefreshSafe(cfg: Config, s: Ctrl)
    requires ConfigOk(cfg) && Safe(cfg, s)
    ensures Safe(cfg, TickRefresh(cfg, s))
  {
    hide Agrees, QueuesOk, RefreshOk, FenceOk, TickRequests, TickGenerator;
    RequestsQueue(cfg, s.refresh, s.channel);
    var q := TickRequests(cfg, s.refresh, s.channel).refreshQ;
    QueueingKeepsAgreement(cfg, s.issued, s.channel, q);
    FenceKept(cfg, s.channel.refreshQ, q, s.queues);
  }

  // ----------------------------------------------------------- issuing

  // A command that IssueStep may issue: legal now, and if it is a refresh, it
  // answers the oldest request and the fence is down.
  ghost predicate Issuable(cfg: Config, s: Ctrl, c: Command) {
    && Legal(s.channel, c, s.clk)
    && c.kind != SrefEnter && c.kind != SrefExit
    && (c.kind == Activate ==> ActivationWindowOk(cfg, s.channel, c.addr.rank, s.clk))
    && (c.IsRefresh() ==> s.channel.refreshQ != [] && s.channel.refreshQ[0] == c && !s.queues.inRef)
  }

  lemma ApplyQueue(cfg: Config, ch: Channel, cmd: Command, clk: nat)
    requires StateAccepts(ch, cmd)
    ensures var ch' := Apply(cfg, ch, cmd, clk);
            && ch'.refreshQ == (if cmd.IsRefresh() then Retire(ch.refreshQ, cmd) else ch.refreshQ)
            && (cmd.kind != SrefEnter && cmd.kind != SrefExit ==> ch'.selfRefreshing == ch.selfRefreshing)
  {
  }

  // A finished refresh retires exactly the oldest request.
  lemma RetireHead(q: seq<Command>)
    requires q != []
    ensures Retire(q, q[0]) == q[1..]
  {
  }

  lemma IssueAgrees(cfg: Config, s: Ctrl, c: Command)
    requires Agrees(cfg, s.issued, s.channel) && ClockOk(s.issued, s.clk)
    requires Issuable(cfg, s, c)
    requires c.kind == Refresh ==> cfg.ValidRank(c.addr.rank)
    ensures StateAccepts(s.channel, c)
    ensures Agrees(cfg, s.issued + [Issued(c, s.clk)], Apply(cfg, s.channel, c, s.clk))
  {
    ApplyAgrees(cfg, s.issued, s.channel, c, s.clk);
  }

  lemma IssueKeepsRequests(cfg: Config, s: Ctrl, c: Command)
    requires RefreshOk(cfg, s.channel, s.refresh) && FenceOk(cfg, s.channel.refreshQ, s.queues)
    requires Issuable(cfg, s, c) && StateAccepts(s.channel, c)
    ensures var ch' := Apply(cfg, s.channel, c, s.clk);
            && RefreshOk(cfg, ch', s.refresh) && FenceOk(cfg, ch'.refreshQ, s.queues)
            && ch'.refreshQ == if c.IsRefresh() then s.channel.refreshQ[1..] else s.channel.refreshQ
  {
    ApplyQueue(cfg, s.channel, c, s.clk);
    if c.IsRefresh() {
      RetireHead(s.channel.refreshQ);
    }
  }

  lemma IssueChannelSafe(cfg: Config, s: Ctrl, c: Command)
    requires ConfigOk(cfg) && Safe(cfg, s) && Issuable(cfg, s, c)
    ensures Safe(cfg, IssueChannel(cfg, s, c))
    ensures IssueChannel(cfg, s, c).channel.refreshQ ==
              if c.IsRefresh() then s.channel.refreshQ[1..] else s.channel.refreshQ
  {
    if c.IsRefresh() {
      assert RequestOk(cfg, s.channel.refreshQ[0]);
    }
    IssueAgrees(cfg, s, c);
    IssueKeepsRequests(cfg, s, c);
  }

  // --------------------------------------------------------- choosing

  lemma OldestReply(cfg: Config, ch: Channel, ref: Command, clk: nat)
    requires ChannelOk(cfg, ch) && RequestOk(cfg, ref)
    ensures var r := GetReady(cfg, ch, ref, clk);
            && !r.Abort?
            && (r.Ready? ==> Legal(ch, r.cmd, clk) && !r.cmd.IsReadWrite()
                             && (r.cmd == ref || r.cmd.kind == Precharge))
  {
    ReadyMeaning(cfg, ch, ref, clk);
  }

  lemma FenceSafe(cfg: Config, s: Ctrl)
    requires Safe(cfg, s) && s.channel.refreshQ != []
    ensures var q := Fence(cfg, s.channel.refreshQ[0], s.queues);
            q.inRef && Safe(cfg, s.(queues := q))
  {
  }

  lemma LowerFenceSafe(cfg: Config, s: Ctrl)
    requires Safe(cfg, s)
    ensures Safe(cfg, s.(queues := s.queues.(inRef := false, refLanes := {})))
  {
  }

  // Whatever the channel answers the fenced request, the queues stay safe and
  // what goes out may go out.
  lemma AnswerSafe(cfg: Config, s: Ctrl, ref: Command, reply: Reply)
    requires Safe(cfg, s) && s.queues.inRef && s.channel.refreshQ != [] && ref == s.channel.refreshQ[0]
    requires reply.Ready? ==> Legal(s.channel, reply.cmd, s.clk) && !reply.cmd.IsReadWrite()
    requires reply.Ready? ==> reply.cmd == ref || reply.cmd.kind == Precharge
    requires !reply.Abort? && ref.IsRefresh()
    ensures var (q, pick) := AnswerFence(s.queues, reply);
            && !pick.Crash?
            && Safe(cfg, s.(queues := q))
            && q == s.queues.(inRef := q.inRef, refLanes := q.refLanes)
            && (pick.Nothing? ==> q.inRef)
            && (pick.Chosen? ==>
                  && Issuable(cfg, s.(queues := q), pick.cmd)
                  && !pick.cmd.IsReadWrite()
                  && (pick.cmd == ref || (pick.cmd.kind == Precharge && q.inRef)))
  {
    if reply.Ready? && reply.cmd.IsRefresh() {
      LowerFenceSafe(cfg, s);
    }
  }

  lemma FinishRefreshMeaning(cfg: Config, s: Ctrl)
    requires ConfigOk(cfg) && Safe(cfg, s) && s.channel.refreshQ != []
    ensures var (q, pick) := FinishRefresh(cfg, s.channel, s.queues);
            && !pick.Crash?
            && Safe(cfg, s.(queues := q))
            && q == s.queues.(inRef := q.inRef, refLanes := q.refLanes)
            && (pick.Nothing? ==> q.inRef)
            && (pick.Chosen? ==>
                  && Issuable(cfg, s.(queues := q), pick.cmd)
                  && !pick.cmd.IsReadWrite()
                  && (pick.cmd == s.channel.refreshQ[0] || (pick.cmd.kind == Precharge && q.inRef)))
  {
    var ref := s.channel.refreshQ[0];
    assert RequestOk(cfg, ref);
    AgreesIsOk(cfg, s.issued, s.channel);
    OldestReply(cfg, s.channel, ref, s.clk);
    FenceSafe(cfg, s);
    AnswerSafe(cfg, s.(queues := Fence(cfg, ref, s.queues)), ref, GetReady(cfg, s.channel, ref, s.clk));
  }

  lemma FetchSafe(cfg: Config, s: Ctrl) returns (l: nat, i: nat)
    requires ConfigOk(cfg) && Safe(cfg, s)
    ensures var (q, pick) := Fetch(cfg, s.channel, s.queues, |s.queues.lanes|);
            && !pick.Crash?
            && Safe(cfg, s.(queues := q))
            && (pick.Nothing? ==> q.lanes == s.queues.lanes)
            && (pick.Chosen? ==> ChosenFrom(cfg, s.channel, s.queues, q, pick.cmd, l, i)
                                 && Issuable(cfg, s.(queues := q), pick.cmd))
  {
    AgreesIsOk(cfg, s.issued, s.channel);
    l, i := FetchMeaning(cfg, s.channel, s.queues, |s.queues.lanes|);
    var (q, pick) := Fetch(cfg, s.channel, s.queues, |s.queues.lanes|);
    assert q.clk == s.queues.clk;
  }

  // ------------------------------------------------------------ the other steps

  lemma EndCycleSafe(cfg: Config, s: Ctrl)
    requires Safe(cfg, s)
    ensures Safe(cfg, EndCycle(s))
  {
  }

  lemma AppendKeepsLane(cfg: Config, lane: seq<Command>, l: int, c: Command)
    requires LaneOk(cfg, lane, l) && Placed(cfg, c, l)
    requires forall i :: 0 <= i < |lane| ==> !SameEntry(lane[i], c)
    ensures LaneOk(cfg, lane + [c], l)
  {
  }
}
