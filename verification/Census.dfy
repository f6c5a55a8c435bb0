// Counting: every pending address has exactly one entry across the transaction
// queues and the command queues.
module Census {
  import opened Basics
  import opened DramTypes
  import opened ChannelSpec
  import opened QueueSpec
  import opened ControllerSpec

  datatype Key = Key(addr: int, isWrite: bool)

  function KeyOf(c: Command): Key { Key(c.hexAddr, c.IsWrite()) }

  function LaneKeys(lane: seq<Command>): multiset<Key> {
    if lane == [] then multiset{} else LaneKeys(lane[..|lane| - 1]) + multiset{KeyOf(lane[|lane| - 1])}
  }

  function AllLaneKeys(lanes: seq<seq<Command>>): multiset<Key> {
    if lanes == [] then multiset{} else AllLaneKeys(lanes[..|lanes| - 1]) + LaneKeys(lanes[|lanes| - 1])
  }

  function TransKeys(q: seq<Transaction>): multiset<Key> {
    if q == [] then multiset{} else multiset{Key(q[0].addr, q[0].isWrite)} + TransKeys(q[1..])
  }

  // The queues and the pending addresses of a controller state.
  datatype Parts = Parts(
    lanes: seq<seq<Command>>,
    unifiedQ: seq<Transaction>, readQ: seq<Transaction>, writeBuf: seq<Transaction>,
    rd: set<int>, wr: set<int>)

  function PartsOf(s: Ctrl): Parts {
    Parts(s.queues.lanes, s.unifiedQ, s.readQ, s.writeBuf, s.pendingRd.Keys, s.pendingWr.Keys)
  }

  function WaitingKeys(p: Parts): multiset<Key> {
    TransKeys(p.unifiedQ) + TransKeys(p.readQ) + TransKeys(p.writeBuf)
  }

  function PendingKeys(p: Parts): set<Key> {
    (set a | a in p.rd :: Key(a, false)) + (set a | a in p.wr :: Key(a, true))
  }

  // `flying` is a command that has left its queue and is about to be issued.
  predicate CountedWith(p: Parts, flying: multiset<Key>) {
    AllLaneKeys(p.lanes) + WaitingKeys(p) + flying == multiset(PendingKeys(p))
  }

  predicate Counted(p: Parts) { CountedWith(p, multiset{}) }

  // ------------------------------------------------------------ sequences

  lemma LaneAppend(lane: seq<Command>, c: Command)
    ensures LaneKeys(lane + [c]) == LaneKeys(lane) + multiset{KeyOf(c)}
  {
    assert (lane + [c])[..|lane|] == lane;
  }

  lemma SwapLast(a: multiset<Key>, b: multiset<Key>, c: multiset<Key>)
    ensures (a + c) + b == (a + b) + c
  {
  }

  lemma LaneKeysUnfold(lane: seq<Command>)
    requires lane != []
    ensures LaneKeys(lane) == LaneKeys(lane[..|lane| - 1]) + multiset{KeyOf(lane[|lane| - 1])}
  {
  }

  lemma {:induction false} LaneRemove(lane: seq<Command>, i: nat)
    requires i < |lane|
    ensures LaneKeys(Remove(lane, i)) + multiset{KeyOf(lane[i])} == LaneKeys(lane)
  {
    hide *;
    var n := |lane| - 1;
    LaneKeysUnfold(lane);
    if i < n {
      RemoveBeforeLast(lane, i);
      LaneRemove(lane[..n], i);
      LaneAppend(Remove(lane[..n], i), lane[n]);
      SwapLast(LaneKeys(Remove(lane[..n], i)), multiset{KeyOf(lane[i])}, multiset{KeyOf(lane[n])});
    } else {
      RemoveLast(lane);
    }
  }

  lemma {:induction false} LaneMember(lane: seq<Command>, i: nat)
    requires i < |lane|
    ensures KeyOf(lane[i]) in LaneKeys(lane)
  {
    LaneRemove(lane, i);
  }

  lemma Regroup(a: multiset<Key>, b: multiset<Key>, c: multiset<Key>, d: multiset<Key>, e: multiset<Key>)
    requires a + b == c + d
    ensures (a + e) + b == (c + e) + d
  {
    assert (a + e) + b == (a + b) + e;
    assert (c + e) + d == (c + d) + e;
  }

  lemma {:induction false} LanesUpdate(lanes: seq<seq<Command>>, l: nat, lane: seq<Command>)
    requires l < |lanes|
    ensures AllLaneKeys(lanes[l := lane]) + LaneKeys(lanes[l]) == AllLaneKeys(lanes) + LaneKeys(lane)
  {
    hide *;
    var n := |lanes| - 1;
    AllKeysUnfold(lanes);
    AllKeysUnfold(lanes[l := lane]);
    if l < n {
      LanesUpdate(lanes[..n], l, lane);
      assert lanes[l := lane][..n] == lanes[..n][l := lane];
      Regroup(AllLaneKeys(lanes[..n][l := lane]), LaneKeys(lanes[l]), AllLaneKeys(lanes[..n]), LaneKeys(lane), LaneKeys(lanes[n]));
    } else {
      assert lanes[l := lane][..n] == lanes[..n];
      SwapLast(AllLaneKeys(lanes[..n]), LaneKeys(lane), LaneKeys(lanes[n]));
    }
  }

  lemma AllKeysUnfold(lanes: seq<seq<Command>>)
    requires lanes != []
    ensures AllLaneKeys(lanes) == AllLaneKeys(lanes[..|lanes| - 1]) + LaneKeys(lanes[|lanes| - 1])
  {
  }

  lemma {:induction false} LanesMember(lanes: seq<seq<Command>>, l: nat, i: nat)
    requires l < |lanes| && i < |lanes[l]|
    ensures KeyOf(lanes[l][i]) in AllLaneKeys(lanes)
  {
    LaneMember(lanes[l], i);
    LanesUpdate(lanes, l, []);
    assert LaneKeys([]) == multiset{};
    assert AllLaneKeys(lanes) == AllLaneKeys(lanes[l := []]) + LaneKeys(lanes[l]);
  }

  lemma {:induction false} LaneKeyIndex(lane: seq<Command>, k: Key) returns (i: nat)
    requires k in LaneKeys(lane)
    ensures i < |lane| && KeyOf(lane[i]) == k
  {
    if KeyOf(lane[|lane| - 1]) == k {
      i := |lane| - 1;
    } else {
      i := LaneKeyIndex(lane[..|lane| - 1], k);
    }
  }

  lemma {:induction false} LanesKeyIndex(lanes: seq<seq<Command>>, k: Key) returns (l: nat, i: nat)
    requires k in AllLaneKeys(lanes)
    ensures l < |lanes| && i < |lanes[l]| && KeyOf(lanes[l][i]) == k
  {
    var n := |lanes| - 1;
    if k in LaneKeys(lanes[n]) {
      l := n;
      i := LaneKeyIndex(lanes[n], k);
    } else {
      l, i := LanesKeyIndex(lanes[..n], k);
    }
  }

  lemma {:induction false} TransAppend(q: seq<Transaction>, t: Transaction)
    ensures TransKeys(q + [t]) == TransKeys(q) + multiset{Key(t.addr, t.isWrite)}
  {
    if q != [] {
      TransAppend(q[1..], t);
      assert (q + [t])[1..] == q[1..] + [t];
    }
  }

  lemma {:induction false} TransKeyIndex(q: seq<Transaction>, k: Key) returns (i: nat)
    requires k in TransKeys(q)
    ensures i < |q| && Key(q[i].addr, q[i].isWrite) == k
  {
    if Key(q[0].addr, q[0].isWrite) == k {
      i := 0;
    } else {
      i := TransKeyIndex(q[1..], k);
      i := i + 1;
    }
  }

  lemma {:induction false} TransMember(q: seq<Transaction>, i: nat)
    requires i < |q|
    ensures Key(q[i].addr, q[i].isWrite) in TransKeys(q)
  {
    if i > 0 {
      TransMember(q[1..], i - 1);
    }
  }

  // A key counted once on one side is absent from the other.
  lemma CountedOnce(p: Parts, k: Key)
    requires Counted(p)
    ensures AllLaneKeys(p.lanes)[k] + WaitingKeys(p)[k] == if k in PendingKeys(p) then 1 else 0
  {
    assert (AllLaneKeys(p.lanes) + WaitingKeys(p) + multiset{})[k] == multiset(PendingKeys(p))[k];
  }

  // ----------------------------------------------------------------- order

  // No read stands behind a write to its own address: not in a command queue,
  // not in the unified queue, and not in any transaction queue once the write
  // has reached a command queue.
  ghost predicate LaneOrdered(lane: seq<Command>) {
    forall i, j :: 0 <= i < j < |lane| && lane[i].IsWrite() && lane[j].IsRead() ==> lane[i].hexAddr != lane[j].hexAddr
  }

  ghost predicate QueueOrdered(q: seq<Transaction>) {
    forall i, j :: 0 <= i < j < |q| && q[i].isWrite && !q[j].isWrite ==> q[i].addr != q[j].addr
  }

  ghost predicate CrossOrdered(p: Parts) {
    forall a {:trigger Key(a, true)} :: Key(a, true) in AllLaneKeys(p.lanes) ==> Key(a, false) !in WaitingKeys(p)
  }

  ghost predicate Ordered(p: Parts) {
    && (forall l :: 0 <= l < |p.lanes| ==> LaneOrdered(p.lanes[l]))
    && QueueOrdered(p.unifiedQ)
    && CrossOrdered(p)
  }

  // Unified or split queues, never both.
  predicate Sorted(cfg: Config, p: Parts) {
    && (cfg.unified ==> p.readQ == [] && p.writeBuf == [])
    && (!cfg.unified ==> p.unifiedQ == [])
    && (forall i :: 0 <= i < |p.readQ| ==> !p.readQ[i].isWrite)
    && (forall i :: 0 <= i < |p.writeBuf| ==> p.writeBuf[i].isWrite)
  }

  ghost predicate Queued(cfg: Config, p: Parts) {
    Counted(p) && Ordered(p) && Sorted(cfg, p)
  }
}
