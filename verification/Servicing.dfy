// Every accepted transaction is served exactly once, and no write overtakes a
// read of the same address.
module Servicing {
  import opened Basics
  import opened DramTypes
  import opened ChannelSpec
  import opened QueueSpec
  import opened ControllerSpec
  import opened QueueSafety
  import opened Census

  // ----------------------------------------------------------- taking a command

  function TakeParts(p: Parts, l: nat, i: nat): Parts
    requires l < |p.lanes| && i < |p.lanes[l]|
  {
    p.(lanes := p.lanes[l := Remove(p.lanes[l], i)])
  }

  lemma CancelCommon(a: multiset<Key>, b: multiset<Key>, d: multiset<Key>, e: multiset<Key>, k: multiset<Key>)
    requires a + d == b + e && e + k == d
    ensures a + k == b
  {
    forall x: Key
      ensures (a + k)[x] == b[x]
    {
      assert (a + d)[x] == (b + e)[x] && (e + k)[x] == d[x];
    }
  }

  // Taking a queued command puts its key in flight.
  lemma TakenCounted(p: Parts, l: nat, i: nat)
    requires l < |p.lanes| && i < |p.lanes[l]|
    ensures AllLaneKeys(TakeParts(p, l, i).lanes) + multiset{KeyOf(p.lanes[l][i])} == AllLaneKeys(p.lanes)
    ensures Counted(p) ==> CountedWith(TakeParts(p, l, i), multiset{KeyOf(p.lanes[l][i])})
  {
    var lane := Remove(p.lanes[l], i);
    LaneRemove(p.lanes[l], i);
    LanesUpdate(p.lanes, l, lane);
    CancelCommon(AllLaneKeys(TakeParts(p, l, i).lanes), AllLaneKeys(p.lanes), LaneKeys(p.lanes[l]), LaneKeys(lane),
                 multiset{KeyOf(p.lanes[l][i])});
  }

  lemma RemoveOrdered(lane: seq<Command>, i: nat)
    requires LaneOrdered(lane) && i < |lane|
    ensures LaneOrdered(Remove(lane, i))
  {
    var r := Remove(lane, i);
    assert forall j :: 0 <= j < |r| ==> r[j] == if j < i then lane[j] else lane[j + 1];
  }

  lemma TakenOrdered(p: Parts, l: nat, i: nat)
    requires Ordered(p) && l < |p.lanes| && i < |p.lanes[l]|
    ensures Ordered(TakeParts(p, l, i))
  {
    TakenCounted(p, l, i);
    RemoveOrdered(p.lanes[l], i);
    var p' := TakeParts(p, l, i);
    assert WaitingKeys(p') == WaitingKeys(p);
    forall a | Key(a, true) in AllLaneKeys(p'.lanes)
      ensures Key(a, false) !in WaitingKeys(p')
    {
      assert Key(a, true) in AllLaneKeys(p.lanes);
    }
  }

  // When a write may leave its queue, no read of its address is pending.
  lemma NoReaderLeft(cfg: Config, p: Parts, l: nat, i: nat)
    requires Counted(p) && Ordered(p)
    requires forall m :: 0 <= m < |p.lanes| ==> LaneOk(cfg, p.lanes[m], m)
    requires l < |p.lanes| && i < |p.lanes[l]|
    requires p.lanes[l][i].IsWrite() && !WaitsForRead(p.lanes[l], i)
    ensures p.lanes[l][i].hexAddr !in p.rd
  {
    var w: Command := p.lanes[l][i];
    assert LaneOrdered(p.lanes[l]);
    if w.hexAddr in p.rd {
      var k := Key(w.hexAddr, false);
      LanesMember(p.lanes, l, i);
      assert Key(w.hexAddr, true) in AllLaneKeys(p.lanes);
      CountedOnce(p, k);
      assert k in PendingKeys(p);
      var m, j := LanesKeyIndex(p.lanes, k);
      assert LaneOk(cfg, p.lanes[m], m) && LaneOk(cfg, p.lanes[l], l);
      assert Placed(cfg, p.lanes[m][j], m) && Placed(cfg, w, l);
      assert p.lanes[l][j].IsRead();
      if j < i {
        assert SameCellRead(p.lanes[l][j], w);
      }
    }
  }

  // ------------------------------------------------------------------- issuing

  function IssueParts(p: Parts, c: Command): Parts {
    if c.IsRead() then p.(rd := p.rd - {c.hexAddr})
    else if c.IsWrite() then p.(wr := p.wr - {c.hexAddr})
    else p
  }

  lemma IssuedCounted(p: Parts, c: Command)
    requires c.IsReadWrite() && CountedWith(p, multiset{KeyOf(c)})
    ensures c.hexAddr in (if c.IsRead() then p.rd else p.wr)
    ensures Counted(IssueParts(p, c))
  {
    var k := KeyOf(c);
    assert k in multiset(PendingKeys(p));
    var p' := IssueParts(p, c);
    assert PendingKeys(p') == PendingKeys(p) - {k};
    assert multiset(PendingKeys(p)) == multiset(PendingKeys(p')) + multiset{k};
    var a, b := AllLaneKeys(p.lanes) + WaitingKeys(p), multiset(PendingKeys(p'));
    assert a + multiset{k} == b + multiset{k};
    CancelCommon(a, b, multiset{k}, multiset{k}, multiset{});
  }

  lemma IssuedOrdered(p: Parts, c: Command)
    requires Ordered(p)
    ensures Ordered(IssueParts(p, c))
  {
    assert WaitingKeys(IssueParts(p, c)) == WaitingKeys(p);
  }

  lemma IssueDataFields(cfg: Config, s: Ctrl, c: Command)
    requires !IssueData(cfg, s, c).halted
    ensures var s' := IssueData(cfg, s, c);
            PartsOf(s') == IssueParts(PartsOf(s), c) && s'.queues == s.queues
  {
  }

  lemma IssueChannelFields(cfg: Config, s: Ctrl, c: Command)
    ensures PartsOf(IssueChannel(cfg, s, c)) == PartsOf(s)
  {
  }

  // --------------------------------------------------------------- accepting

  function PushParts(cfg: Config, p: Parts, t: Transaction): Parts {
    var p1 := if t.isWrite then p.(wr := p.wr + {t.addr}) else p.(rd := p.rd + {t.addr});
    if cfg.unified then p1.(unifiedQ := p.unifiedQ + [t])
    else if t.isWrite then p1.(writeBuf := p.writeBuf + [t])
    else p1.(readQ := p.readQ + [t])
  }

  // A transaction that merges with a pending write, or a read that merges with
  // a pending read, enters no queue.
  predicate Merges(p: Parts, t: Transaction) {
    t.addr in p.wr || (!t.isWrite && t.addr in p.rd)
  }

  lemma AcceptFields(cfg: Config, s: Ctrl, addr: int, isWrite: bool, data: int)
    ensures var t := Transaction(addr, isWrite, |s.log|, data, s.clk, 0);
            PartsOf(Accept(cfg, s, addr, isWrite, data)) ==
              if Merges(PartsOf(s), t) then PartsOf(s) else PushParts(cfg, PartsOf(s), t)
  {
    if isWrite {
      if addr in s.pendingWr {
        assert s.pendingWr.Keys + {addr} == s.pendingWr.Keys;
      }
    } else if addr !in s.pendingWr && addr in s.pendingRd {
      assert s.pendingRd.Keys + {addr} == s.pendingRd.Keys;
    }
  }

  lemma PushWaiting(cfg: Config, p: Parts, t: Transaction)
    ensures WaitingKeys(PushParts(cfg, p, t)) == WaitingKeys(p) + multiset{Key(t.addr, t.isWrite)}
  {
    if cfg.unified {
      TransAppend(p.unifiedQ, t);
    } else if t.isWrite {
      TransAppend(p.writeBuf, t);
    } else {
      TransAppend(p.readQ, t);
    }
  }

  lemma AddToBoth(a: multiset<Key>, w: multiset<Key>, w': multiset<Key>, n: set<Key>, n': set<Key>, k: Key)
    requires a + w + multiset{} == multiset(n) && k !in n
    requires w' == w + multiset{k} && n' == n + {k}
    ensures a + w' + multiset{} == multiset(n')
  {
    assert multiset(n') == multiset(n) + multiset{k};
    assert a + w' + multiset{} == (a + w + multiset{}) + multiset{k};
  }

  lemma PushPending(cfg: Config, p: Parts, t: Transaction)
    requires !Merges(p, t)
    ensures var k := Key(t.addr, t.isWrite);
            k !in PendingKeys(p) && PendingKeys(PushParts(cfg, p, t)) == PendingKeys(p) + {k}
  {
  }

  lemma PushCounted(cfg: Config, p: Parts, t: Transaction)
    requires Counted(p) && !Merges(p, t)
    ensures Counted(PushParts(cfg, p, t))
  {
    var p' := PushParts(cfg, p, t);
    PushWaiting(cfg, p, t);
    PushPending(cfg, p, t);
    AddToBoth(AllLaneKeys(p.lanes), WaitingKeys(p), WaitingKeys(p'), PendingKeys(p), PendingKeys(p'), Key(t.addr, t.isWrite));
  }

  lemma AppendOrdered(q: seq<Transaction>, t: Transaction)
    requires QueueOrdered(q) && (t.isWrite || Key(t.addr, true) !in TransKeys(q))
    ensures QueueOrdered(q + [t])
  {
    forall i | 0 <= i < |q| && q[i].isWrite && !t.isWrite
      ensures q[i].addr != t.addr
    {
      TransMember(q, i);
    }
  }

  lemma PushCross(p: Parts, p': Parts, t: Transaction)
    requires Counted(p) && CrossOrdered(p) && !Merges(p, t)
    requires p'.lanes == p.lanes && WaitingKeys(p') == WaitingKeys(p) + multiset{Key(t.addr, t.isWrite)}
    ensures CrossOrdered(p')
  {
    CountedOnce(p, Key(t.addr, true));
    forall a | Key(a, true) in AllLaneKeys(p'.lanes)
      ensures Key(a, false) !in WaitingKeys(p')
    {
      assert Key(a, false) !in WaitingKeys(p);
    }
  }

  lemma PushOrdered(cfg: Config, p: Parts, t: Transaction)
    requires Counted(p) && Ordered(p) && !Merges(p, t)
    ensures Ordered(PushParts(cfg, p, t))
  {
    PushWaiting(cfg, p, t);
    CountedOnce(p, Key(t.addr, true));
    AppendOrdered(p.unifiedQ, t);
    PushCross(p, PushParts(cfg, p, t), t);
  }

  lemma AcceptQueued(cfg: Config, s: Ctrl, addr: int, isWrite: bool, data: int)
    requires Queued(cfg, PartsOf(s))
    ensures Queued(cfg, PartsOf(Accept(cfg, s, addr, isWrite, data)))
  {
    var t := Transaction(addr, isWrite, |s.log|, data, s.clk, 0);
    AcceptFields(cfg, s, addr, isWrite, data);
    if !Merges(PartsOf(s), t) {
      PushCounted(cfg, PartsOf(s), t);
      PushOrdered(cfg, PartsOf(s), t);
    }
  }

  // --------------------------------------------------------------- scheduling

  function SourceParts(p: Parts, from: Source): seq<Transaction> {
    match from case FromUnified => p.unifiedQ case FromReads => p.readQ case FromWrites => p.writeBuf
  }

  function PopParts(p: Parts, from: Source): Parts
    requires SourceParts(p, from) != []
  {
    match from
    case FromUnified => p.(unifiedQ := p.unifiedQ[1..])
    case FromReads => p.(readQ := p.readQ[1..])
    case FromWrites => p.(writeBuf := p.writeBuf[1..])
  }

  function MoveParts(p: Parts, from: Source, l: nat, c: Command): Parts
    requires SourceParts(p, from) != [] && l < |p.lanes|
  {
    PopParts(p, from).(lanes := p.lanes[l := p.lanes[l] + [c]])
  }

  // The head of the queue may move: its lane has room and, with split queues, a
  // write has no pending read to wait for.
  predicate Moves(cfg: Config, s: Ctrl) {
    var from := SourceOf(cfg, s);
    && SourceQueue(s, from) != []
    && var t := SourceQueue(s, from)[0];
       && WillAcceptCommand(cfg, s.queues, TransToCommand(cfg, t).Bank())
       && (cfg.unified || !t.isWrite || t.addr !in s.pendingRd)
  }

  lemma MoveFields(cfg: Config, s: Ctrl)
    ensures var s' := MoveHead(cfg, s);
            && (Moves(cfg, s) ==>
                  var from := SourceOf(cfg, s);
                  var c := TransToCommand(cfg, SourceQueue(s, from)[0]);
                  PartsOf(s') == MoveParts(PartsOf(s), from, LaneOf(cfg, c.Bank()), c))
            && (!Moves(cfg, s) ==> PartsOf(s') == PartsOf(s) && s'.queues == s.queues)
  {
  }

  lemma PopWaiting(p: Parts, from: Source)
    requires SourceParts(p, from) != []
    ensures var t := SourceParts(p, from)[0];
            WaitingKeys(PopParts(p, from)) + multiset{Key(t.addr, t.isWrite)} == WaitingKeys(p)
  {
  }

  lemma MoveBetween(a: multiset<Key>, a': multiset<Key>, w: multiset<Key>, w': multiset<Key>, n: multiset<Key>, k: multiset<Key>)
    requires a + w + multiset{} == n && a' == a + k && w' + k == w
    ensures a' + w' + multiset{} == n
  {
    assert a' + w' + multiset{} == a + (w' + k) + multiset{};
  }

  lemma MovedLanes(p: Parts, l: nat, c: Command)
    requires l < |p.lanes|
    ensures AllLaneKeys(p.lanes[l := p.lanes[l] + [c]]) == AllLaneKeys(p.lanes) + multiset{KeyOf(c)}
  {
    LaneAppend(p.lanes[l], c);
    LanesUpdate(p.lanes, l, p.lanes[l] + [c]);
    CancelCommon(AllLaneKeys(p.lanes) + multiset{KeyOf(c)}, AllLaneKeys(p.lanes[l := p.lanes[l] + [c]]),
                 LaneKeys(p.lanes[l]), LaneKeys(p.lanes[l]), multiset{});
  }

  lemma MovedCounted(p: Parts, from: Source, l: nat, c: Command)
    requires Counted(p) && SourceParts(p, from) != [] && l < |p.lanes|
    requires KeyOf(c) == Key(SourceParts(p, from)[0].addr, SourceParts(p, from)[0].isWrite)
    ensures Counted(MoveParts(p, from, l, c))
  {
    var p' := MoveParts(p, from, l, c);
    MovedLanes(p, l, c);
    PopWaiting(p, from);
    assert PendingKeys(p') == PendingKeys(p);
    assert WaitingKeys(p') == WaitingKeys(PopParts(p, from));
    MoveBetween(AllLaneKeys(p.lanes), AllLaneKeys(p'.lanes), WaitingKeys(p), WaitingKeys(p'),
                multiset(PendingKeys(p)), multiset{KeyOf(c)});
  }

  // The command that arrives in a lane has no twin there, and a read finds no
  // write to its address there.
  lemma ArrivalIsNew(p: Parts, from: Source, l: nat, c: Command)
    requires Counted(p) && CrossOrdered(p) && SourceParts(p, from) != [] && l < |p.lanes|
    requires KeyOf(c) == Key(SourceParts(p, from)[0].addr, SourceParts(p, from)[0].isWrite)
    ensures forall i :: 0 <= i < |p.lanes[l]| ==> KeyOf(p.lanes[l][i]) != KeyOf(c)
    ensures !c.IsWrite() ==>
              forall i :: 0 <= i < |p.lanes[l]| ==> KeyOf(p.lanes[l][i]) != Key(c.hexAddr, true)
  {
    PopWaiting(p, from);
    assert KeyOf(c) in WaitingKeys(p);
    CountedOnce(p, KeyOf(c));
    forall i | 0 <= i < |p.lanes[l]|
      ensures KeyOf(p.lanes[l][i]) in AllLaneKeys(p.lanes)
    {
      LanesMember(p.lanes, l, i);
    }
  }

  lemma ArrivalOrdered(lane: seq<Command>, c: Command)
    requires LaneOrdered(lane)
    requires !c.IsWrite() ==> forall i :: 0 <= i < |lane| ==> KeyOf(lane[i]) != Key(c.hexAddr, true)
    ensures LaneOrdered(lane + [c])
  {
    forall i | 0 <= i < |lane| && lane[i].IsWrite() && c.IsRead()
      ensures lane[i].hexAddr != c.hexAddr
    {
      assert KeyOf(lane[i]) == Key(lane[i].hexAddr, true);
    }
  }

  lemma TailHasNoRead(q: seq<Transaction>)
    requires QueueOrdered(q) && q != [] && q[0].isWrite
    ensures Key(q[0].addr, false) !in TransKeys(q[1..])
  {
    var k := Key(q[0].addr, false);
    assert forall i :: 0 <= i < |q[1..]| ==> q[1..][i] == q[i + 1];
    if k in TransKeys(q[1..]) {
      var i := TransKeyIndex(q[1..], k);
    }
  }

  // A write that moves leaves no read of its address behind in a transaction queue.
  lemma NoReadBehind(cfg: Config, p: Parts, from: Source)
    requires Counted(p) && QueueOrdered(p.unifiedQ) && Sorted(cfg, p)
    requires SourceParts(p, from) != [] && SourceParts(p, from)[0].isWrite
    requires cfg.unified <==> from == FromUnified
    requires cfg.unified || SourceParts(p, from)[0].addr !in p.rd
    ensures Key(SourceParts(p, from)[0].addr, false) !in WaitingKeys(PopParts(p, from))
  {
    var k := Key(SourceParts(p, from)[0].addr, false);
    PopWaiting(p, from);
    if cfg.unified {
      TailHasNoRead(p.unifiedQ);
    } else {
      CountedOnce(p, k);
      assert k !in WaitingKeys(p);
    }
  }

  lemma MovedCross(p: Parts, p': Parts, c: Command)
    requires CrossOrdered(p)
    requires AllLaneKeys(p'.lanes) == AllLaneKeys(p.lanes) + multiset{KeyOf(c)}
    requires WaitingKeys(p') <= WaitingKeys(p)
    requires c.IsWrite() ==> Key(c.hexAddr, false) !in WaitingKeys(p')
    ensures CrossOrdered(p')
  {
    forall a | Key(a, true) in AllLaneKeys(p'.lanes)
      ensures Key(a, false) !in WaitingKeys(p')
    {
      if Key(a, true) in AllLaneKeys(p.lanes) {
        assert Key(a, false) !in WaitingKeys(p);
      }
    }
  }

  lemma MovedOrdered(cfg: Config, p: Parts, from: Source, l: nat, c: Command)
    requires Queued(cfg, p) && SourceParts(p, from) != [] && l < |p.lanes|
    requires KeyOf(c) == Key(SourceParts(p, from)[0].addr, SourceParts(p, from)[0].isWrite)
    requires cfg.unified <==> from == FromUnified
    requires cfg.unified || !c.IsWrite() || c.hexAddr !in p.rd
    ensures Ordered(MoveParts(p, from, l, c))
  {
    var p' := MoveParts(p, from, l, c);
    ArrivalIsNew(p, from, l, c);
    ArrivalOrdered(p.lanes[l], c);
    MovedLanes(p, l, c);
    PopWaiting(p, from);
    assert WaitingKeys(p') == WaitingKeys(PopParts(p, from));
    if c.IsWrite() {
      NoReadBehind(cfg, p, from);
    }
    MovedCross(p, p', c);
  }

  lemma MovePartsQueued(cfg: Config, p: Parts, from: Source, l: nat, c: Command)
    requires Queued(cfg, p) && SourceParts(p, from) != [] && l < |p.lanes|
    requires KeyOf(c) == Key(SourceParts(p, from)[0].addr, SourceParts(p, from)[0].isWrite)
    requires cfg.unified <==> from == FromUnified
    requires cfg.unified || !c.IsWrite() || c.hexAddr !in p.rd
    ensures Queued(cfg, MoveParts(p, from, l, c))
  {
    MovedCounted(p, from, l, c);
    MovedOrdered(cfg, p, from, l, c);
  }

  lemma MoveQueued(cfg: Config, s: Ctrl)
    requires Queued(cfg, PartsOf(s))
    ensures Queued(cfg, PartsOf(MoveHead(cfg, s)))
  {
    MoveFields(cfg, s);
    if Moves(cfg, s) {
      var p, from := PartsOf(s), SourceOf(cfg, s);
      var c := TransToCommand(cfg, SourceQueue(s, from)[0]);
      assert SourceParts(p, from) == SourceQueue(s, from);
      MovePartsQueued(cfg, p, from, LaneOf(cfg, c.Bank()), c);
    }
  }
}
