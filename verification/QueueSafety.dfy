// What fetching a command from well-formed queues can yield.
module QueueSafety {
  import opened Basics
  import opened DramTypes
  import opened Banks
  import opened ChannelSpec
  import opened QueueSpec
  import opened ControllerSpec

  // A queued command is the column command of its address, in its bank's lane.
  predicate Placed(cfg: Config, c: Command, l: int) {
    && c.addr == cfg.decode(c.hexAddr)
    && c.kind == KindFor(cfg, c.IsWrite())
    && LaneOf(cfg, c.Bank()) == l
  }

  ghost predicate LaneOk(cfg: Config, lane: seq<Command>, l: int) {
    && (forall i :: 0 <= i < |lane| ==> Placed(cfg, lane[i], l))
    && (forall i, j :: 0 <= i < j < |lane| ==> !SameEntry(lane[i], lane[j]))
  }

  ghost predicate QueuesOk(cfg: Config, q: Queues) {
    && |q.lanes| == NumLanes(cfg)
    && (|q.lanes| > 0 ==> 0 <= q.next < |q.lanes|)
    && forall l :: 0 <= l < |q.lanes| ==> LaneOk(cfg, q.lanes[l], l)
  }

  ghost predicate ChannelOk(cfg: Config, ch: Channel) {
    Shaped(cfg, ch) && Awake(ch)
  }

  lemma NeverAborts(cfg: Config, ch: Channel, lane: seq<Command>, l: int, i: nat, clk: nat)
    requires cfg.DecodesInRange() && ChannelOk(cfg, ch) && LaneOk(cfg, lane, l) && i < |lane|
    ensures !GetReady(cfg, ch, lane[i], clk).Abort?
  {
    assert Placed(cfg, lane[i], l);
    assert cfg.ValidBank(lane[i].Bank());
    ReadyMeaning(cfg, ch, lane[i], clk);
  }

  lemma {:induction false} FirstReadyMeaning(cfg: Config, ch: Channel, lane: seq<Command>, l: int, clk: nat, i: nat)
    returns (k: nat)
    requires cfg.DecodesInRange() && ChannelOk(cfg, ch) && LaneOk(cfg, lane, l)
    requires i <= |lane|
    ensures !FirstReady(cfg, ch, lane, clk, i).Crash?
    ensures FirstReady(cfg, ch, lane, clk, i).Chosen? ==>
              var c := FirstReady(cfg, ch, lane, clk, i).cmd;
              && i <= k < |lane|
              && GetReady(cfg, ch, lane[k], clk) == Ready(c)
              && !HeldBack(ch, lane, k, c)
    decreases |lane| - i
  {
    k := i;
    if i < |lane| {
      NeverAborts(cfg, ch, lane, l, i, clk);
      var r := GetReady(cfg, ch, lane[i], clk);
      if r.NotReady? || HeldBack(ch, lane, i, r.cmd) {
        k := FirstReadyMeaning(cfg, ch, lane, l, clk, i + 1);
      }
    }
  }

  lemma FindTwinFree(lane: seq<Command>, i: nat)
    requires i < |lane|
    requires forall a, b :: 0 <= a < b < |lane| ==> !SameEntry(lane[a], lane[b])
    ensures Find(lane, lane[i]) == i
  {
    assert SameEntry(lane[i], lane[i]);
  }

  // The command c was chosen for the queued command lanes[l][i]: it serves it,
  // the channel allows it, and its lane does not wait for a refresh. A column
  // command, and nothing else, has left its queue.
  ghost predicate ChosenFrom(cfg: Config, ch: Channel, q: Queues, q': Queues, c: Command, l: nat, i: nat) {
    && l < |q.lanes| && i < |q.lanes[l]|
    && ServesRequest(q.lanes[l][i], c)
    && Legal(ch, c, q.clk)
    && (c.kind == Activate ==> ActivationWindowOk(cfg, ch, c.addr.rank, q.clk))
    && !HeldBack(ch, q.lanes[l], i, c)
    && (q.inRef ==> l !in q.refLanes)
    && q' == q.(next := q'.next,
                lanes := if c.IsReadWrite() then q.lanes[l := Remove(q.lanes[l], i)] else q.lanes)
    && (c.IsReadWrite() ==> c == q.lanes[l][i])
  }

  lemma RemoveKeepsLane(cfg: Config, lane: seq<Command>, l: int, i: nat)
    requires LaneOk(cfg, lane, l) && i < |lane|
    ensures LaneOk(cfg, Remove(lane, i), l)
  {
    var r := Remove(lane, i);
    assert forall j :: 0 <= j < |r| ==> r[j] == if j < i then lane[j] else lane[j + 1];
  }

  // A queued command that the channel is ready for.
  lemma ReadyQueued(cfg: Config, ch: Channel, lane: seq<Command>, l: int, i: nat, clk: nat, c: Command)
    requires cfg.DecodesInRange() && ChannelOk(cfg, ch) && LaneOk(cfg, lane, l)
    requires i < |lane| && GetReady(cfg, ch, lane[i], clk) == Ready(c)
    ensures Legal(ch, c, clk) && ServesRequest(lane[i], c)
    ensures c.kind == Activate ==> ActivationWindowOk(cfg, ch, c.addr.rank, clk)
    ensures c.IsReadWrite() ==> c == lane[i]
    ensures !c.IsRankCommand() && !c.IsRefresh() && c.Bank() == lane[i].Bank()
    ensures LaneOf(cfg, lane[i].Bank()) == l
  {
    assert Placed(cfg, lane[i], l);
    assert cfg.ValidBank(lane[i].Bank());
    ReadyMeaning(cfg, ch, lane[i], clk);
  }

  lemma TakeColumn(cfg: Config, q: Queues, l: nat, i: nat, c: Command)
    requires QueuesOk(cfg, q) && l < |q.lanes| && i < |q.lanes[l]|
    requires c == q.lanes[l][i] && c.IsReadWrite() && LaneOf(cfg, c.Bank()) == l
    ensures Take(cfg, q, c) == (q.(lanes := q.lanes[l := Remove(q.lanes[l], i)]), Chosen(c))
    ensures QueuesOk(cfg, Take(cfg, q, c).0)
  {
    FindTwinFree(q.lanes[l], i);
    RemoveKeepsLane(cfg, q.lanes[l], l, i);
  }

  lemma TakeMeaning(cfg: Config, ch: Channel, q: Queues, l: nat, i: nat, c: Command)
    requires cfg.DecodesInRange() && ChannelOk(cfg, ch) && QueuesOk(cfg, q)
    requires l < |q.lanes| && i < |q.lanes[l]|
    requires GetReady(cfg, ch, q.lanes[l][i], q.clk) == Ready(c)
    requires !HeldBack(ch, q.lanes[l], i, c)
    requires q.inRef ==> l !in q.refLanes
    ensures Take(cfg, q, c).1 == Chosen(c)
    ensures ChosenFrom(cfg, ch, q, Take(cfg, q, c).0, c, l, i)
    ensures QueuesOk(cfg, Take(cfg, q, c).0)
    ensures !c.IsRankCommand() && !c.IsRefresh()
  {
    ReadyQueued(cfg, ch, q.lanes[l], l, i, q.clk, c);
    if c.IsReadWrite() {
      TakeColumn(cfg, q, l, i, c);
    }
  }

  // Visiting one lane that does not wait for a refresh.
  lemma VisitMeaning(cfg: Config, ch: Channel, q: Queues) returns (i: nat)
    requires cfg.DecodesInRange() && ChannelOk(cfg, ch) && QueuesOk(cfg, q)
    requires 0 <= q.next < |q.lanes| && !(q.inRef && q.next in q.refLanes)
    ensures var pick := FirstReady(cfg, ch, q.lanes[q.next], q.clk, 0);
            && !pick.Crash?
            && (pick.Chosen? ==>
                  var (q', taken) := Take(cfg, q, pick.cmd);
                  && taken == pick && QueuesOk(cfg, q')
                  && ChosenFrom(cfg, ch, q, q', pick.cmd, q.next, i)
                  && !pick.cmd.IsRankCommand() && !pick.cmd.IsRefresh())
  {
    i := FirstReadyMeaning(cfg, ch, q.lanes[q.next], q.next, q.clk, 0);
    var pick := FirstReady(cfg, ch, q.lanes[q.next], q.clk, 0);
    if pick.Chosen? {
      TakeMeaning(cfg, ch, q, q.next, i, pick.cmd);
    }
  }

  lemma ChosenEarlier(cfg: Config, ch: Channel, q: Queues, q1: Queues, q': Queues, c: Command, l: nat, i: nat)
    requires q1 == q.(next := q1.next) && ChosenFrom(cfg, ch, q1, q', c, l, i)
    ensures ChosenFrom(cfg, ch, q, q', c, l, i)
  {
  }

  lemma NextLaneOk(cfg: Config, q: Queues)
    requires QueuesOk(cfg, q) && q.lanes != []
    ensures QueuesOk(cfg, NextLane(q)) && 0 <= NextLane(q).next < |NextLane(q).lanes|
  {
  }

  ghost predicate FetchOk(cfg: Config, ch: Channel, q: Queues, q': Queues, pick: Pick, l: nat, i: nat) {
    && !pick.Crash?
    && QueuesOk(cfg, q')
    && (pick.Nothing? ==> q' == q.(next := q'.next))
    && (pick.Chosen? ==> ChosenFrom(cfg, ch, q, q', pick.cmd, l, i) && !pick.cmd.IsRankCommand() && !pick.cmd.IsRefresh())
  }

  lemma FetchEarlier(cfg: Config, ch: Channel, q: Queues, q1: Queues, q': Queues, pick: Pick, l: nat, i: nat)
    requires q1 == q.(next := q1.next) && FetchOk(cfg, ch, q1, q', pick, l, i)
    ensures FetchOk(cfg, ch, q, q', pick, l, i)
  {
    if pick.Chosen? {
      ChosenEarlier(cfg, ch, q, q1, q', pick.cmd, l, i);
    }
  }

  // Fetching from well-formed queues never crashes.
  lemma {:induction false} FetchMeaning(cfg: Config, ch: Channel, q: Queues, n: nat) returns (l: nat, i: nat)
    requires cfg.DecodesInRange() && ChannelOk(cfg, ch) && QueuesOk(cfg, q)
    requires n <= |q.lanes|
    ensures FetchOk(cfg, ch, q, Fetch(cfg, ch, q, n).0, Fetch(cfg, ch, q, n).1, l, i)
    decreases n
  {
    l, i := 0, 0;
    if n > 0 {
      var q1 := NextLane(q);
      NextLaneOk(cfg, q);
      if q1.inRef && q1.next in q1.refLanes {
        l, i := FetchMeaning(cfg, ch, q1, n - 1);
      } else {
        i := VisitMeaning(cfg, ch, q1);
        if FirstReady(cfg, ch, q1.lanes[q1.next], q1.clk, 0).Nothing? {
          l, i := FetchMeaning(cfg, ch, q1, n - 1);
        } else {
          l := q1.next;
        }
      }
      FetchEarlier(cfg, ch, q, q1, Fetch(cfg, ch, q, n).0, Fetch(cfg, ch, q, n).1, l, i);
    }
  }
}
