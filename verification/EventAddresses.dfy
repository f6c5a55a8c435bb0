// Which addresses an event asks the DRAM for: one block after the other from its own
// address on, each once, and so all of its bytes. What was asked is read off the runs.
module EventAddresses {
  import opened Basics
  import opened EventSpec
  import opened EventAccounting

  // n addresses a block apart.
  function Blocks(address: nat, block: nat, first: nat, n: nat): (q: seq<nat>)
    ensures |q| == n
  {
    seq(n, k requires 0 <= k < n => address + block * (first + k))
  }

  // The addresses of one event among entries.
  function AddrsOf(p: seq<Entry>, id: nat): seq<nat> {
    if p == [] then []
    else AddrsOf(p[..|p| - 1], id) + if p[|p| - 1].id == id then [p[|p| - 1].addr] else []
  }

  // What the issuing calls of a run have put in flight for an event, in order.
  function Asked(block: nat, capacity: nat, ops: seq<Op>, id: nat): seq<nat>
    requires 0 < block
  {
    if ops == [] then []
    else
      var before, after := Run(Init(block, capacity), ops[..|ops| - 1]), Run(Init(block, capacity), ops);
      Asked(block, capacity, ops[..|ops| - 1], id)
      + (if ops[|ops| - 1].OpIssue? && |before.pending| <= |after.pending| then AddrsOf(after.pending[|before.pending|..], id) else [])
  }

  // ------------------------------------------------------------------ one event

  lemma {:induction false} AddrsJoin(p: seq<Entry>, q: seq<Entry>, id: nat)
    ensures AddrsOf(p + q, id) == AddrsOf(p, id) + AddrsOf(q, id)
  {
    if q == [] {
      assert p + q == p;
    } else {
      assert (p + q)[..|p + q| - 1] == p + q[..|q| - 1];
      AddrsJoin(p, q[..|q| - 1], id);
    }
  }

  lemma AddrsOne(e: Entry, id: nat)
    ensures AddrsOf([e], id) == if e.id == id then [e.addr] else []
  {
    assert [e][..0] == [];
  }

  lemma BlocksMore(address: nat, block: nat, first: nat, n: nat)
    ensures [address + block * first] + Blocks(address, block, first + 1, n) == Blocks(address, block, first, n + 1)
  {
  }

  lemma BlocksJoin(address: nat, block: nat, n: nat, m: nat)
    ensures Blocks(address, block, 0, n) + Blocks(address, block, n, m) == Blocks(address, block, 0, n + m)
  {
  }

  // How the counters of event x move when `tail` goes out.
  predicate Goes(s: State, s': State, tail: seq<Entry>, x: nat) {
    && |s'.counters| == |s.counters| && s'.block == s.block && x < |s.counters|
    && s'.counters[x].event == s.counters[x].event && s.counters[x].trans <= s'.counters[x].trans
    && AddrsOf(tail, x)
       == Blocks(s.counters[x].event.address, s.block, s.counters[x].trans, s'.counters[x].trans - s.counters[x].trans)
  }

  lemma {:induction false} IssueSomeGoes(s: State, id: nat, room: nat, x: nat) returns (tail: seq<Entry>)
    requires 0 < s.block && id < |s.counters| && x < |s.counters|
    ensures IssueSome(s, id, room).pending == s.pending + tail && Goes(s, IssueSome(s, id, room), tail, x)
    decreases room
  {
    if s.AllIssued(id) || room == 0 {
      tail := [];
    } else {
      var s1 := IssueOne(s, id);
      var rest := IssueSomeGoes(s1, id, room - 1, x);
      var e := Entry(s.counters[id].event.address + s.block * s.counters[id].trans, id);
      tail := [e] + rest;
      OneGoes(s, s1, IssueSome(s1, id, room - 1), id, e, rest, x);
    }
  }

  lemma OneGoes(s: State, s1: State, s': State, id: nat, e: Entry, rest: seq<Entry>, x: nat)
    requires id < |s.counters| && x < |s.counters| && s1 == IssueOne(s, id) && Goes(s1, s', rest, x)
    requires e == Entry(s.counters[id].event.address + s.block * s.counters[id].trans, id)
    ensures s1.pending + rest == s.pending + ([e] + rest) && Goes(s, s', [e] + rest, x)
  {
    hide AddrsOf, Blocks, IssueOne;
    OneFields(s, id, x);
    AddrsJoin([e], rest, x);
    AddrsOne(e, x);
    var c := s.counters[x];
    if x == id {
      BlocksMore(c.event.address, s.block, c.trans, s'.counters[x].trans - (c.trans + 1));
    } else {
      assert [] + AddrsOf(rest, x) == AddrsOf(rest, x);
    }
  }

  lemma OneFields(s: State, id: nat, x: nat)
    requires id < |s.counters| && x < |s.counters|
    ensures var s1 := IssueOne(s, id);
            && s1.pending == s.pending + [Entry(s.counters[id].event.address + s.block * s.counters[id].trans, id)]
            && s1.block == s.block && |s1.counters| == |s.counters|
            && s1.counters[x].event == s.counters[x].event
            && s1.counters[x].trans == s.counters[x].trans + if x == id then 1 else 0
  {
  }

  lemma PopKeeps(s: State, c: Choice)
    requires QueueOf(s, c) != []
    ensures PopFrom(s, c).pending == s.pending && PopFrom(s, c).counters == s.counters && PopFrom(s, c).block == s.block
  {
  }

  lemma DramGoes(s: State, room: nat, x: nat) returns (tail: seq<Entry>)
    requires 0 < s.block && QueuesKnown(s) && x < |s.counters|
    ensures IssueDram(s, room).pending == s.pending + tail && Goes(s, IssueDram(s, room), tail, x)
  {
    hide Goes, IssueSome, PopFrom;
    var c := Chosen(s);
    if c == FromNone {
      tail := [];
      NothingGoes(s, x);
    } else {
      var id := QueueOf(s, c)[0];
      tail := IssueSomeGoes(s, id, room, x);
      var s1 := IssueSome(s, id, room);
      if QueueOf(s1, c) != [] {
        PopKeeps(s1, c);
        GoesSame(s, s1, PopFrom(s1, c), tail, x);
      }
    }
  }

  lemma NothingGoes(s: State, x: nat)
    requires x < |s.counters|
    ensures Goes(s, s, [], x)
  {
  }

  lemma GoesSame(s: State, s1: State, s2: State, tail: seq<Entry>, x: nat)
    requires Goes(s, s1, tail, x) && s2.block == s1.block && |s2.counters| == |s1.counters| && s2.counters[x] == s1.counters[x]
    ensures Goes(s, s2, tail, x)
  {
  }

  // The aggregation buffer's events are others.
  lemma {:induction false} SomeEdramKeeps(s: State, id: nat, x: nat)
    requires 0 < s.block && id < |s.counters| && x < |s.counters| && x != id
    ensures var s' := IssueSomeEdram(s, id);
            && s'.pending == s.pending && s'.counters[x] == s.counters[x]
            && forall k :: 0 <= k < |s.counters| ==> s'.counters[k].event == s.counters[k].event
    decreases TransPerClock - |s.edramTrans|
  {
    hide EdramAddr;
    if !(s.AllIssued(id) || |s.edramTrans| >= TransPerClock) {
      SomeEdramKeeps(IssueOneEdram(s, id), id, x);
    }
  }

  lemma {:induction false} EdramKeeps(s: State, x: nat)
    requires 0 < s.block && x < |s.counters| && s.counters[x].event.dir == Dram
    requires forall i :: 0 <= i < |s.tmps| ==> s.tmps[i] < |s.counters| && s.counters[s.tmps[i]].event.dir == Edram
    ensures var s' := IssueEdram(s);
            && s'.pending == s.pending && |s'.counters| == |s.counters| && s'.block == s.block && s'.counters[x] == s.counters[x]
    decreases |s.tmps|
  {
    hide IssueSomeEdram;
    if s.tmps != [] {
      var id := s.tmps[0];
      SomeEdramKeeps(s, id, x);
      var s1 := IssueSomeEdram(s, id);
      if s1.AllIssued(id) && |s1.edramTrans| < TransPerClock {
        EdramKeeps(s1.(tmps := s1.tmps[1..]), x);
      }
    }
  }

  lemma IssueGoes(s: State, room: nat, x: nat) returns (tail: seq<Entry>)
    requires Inv(s) && x < |s.counters| && s.counters[x].event.dir == Dram
    ensures var s' := Step(s, OpIssue(room));
            s'.pending == s.pending + tail && Goes(s, s', tail, x)
  {
    hide Inv, IssueDram, IssueEdram;
    InvKnown(s);
    IssueDramKnown(s, room);
    IssueDramInv(s, room);
    tail := DramGoes(s, room, x);
    var s1 := IssueDram(s, room);
    InvTmps(s1);
    EventSame(s, s1, tail, x);
    EdramKeeps(s1, x);
    GoesSame(s, s1, IssueEdram(s1), tail, x);
    hide Goes;
  }

  lemma EventSame(s: State, s1: State, tail: seq<Entry>, x: nat)
    requires Goes(s, s1, tail, x)
    ensures x < |s1.counters| && s1.counters[x].event == s.counters[x].event && s1.block == s.block
  {
  }

  lemma InvKnown(s: State)
    requires Inv(s)
    ensures 0 < s.block && QueuesKnown(s) && EntriesKnown(s) && !s.failed
  {
  }

  lemma InvTmps(s: State)
    requires Inv(s)
    ensures forall i :: 0 <= i < |s.tmps| ==> s.tmps[i] < |s.counters| && s.counters[s.tmps[i]].event.dir == Edram
  {
  }

  // ------------------------------------------------------------------ all steps

  // What s' has of the events of s, and the event that an arrival adds.
  predicate KeepsTrans(s: State, s': State, x: nat) {
    && |s.counters| <= |s'.counters|
    && (x < |s.counters| ==> s'.counters[x].event == s.counters[x].event && s'.counters[x].trans == s.counters[x].trans)
  }

  lemma MemKeeps(s: State, addr: nat, i: nat, x: nat)
    requires Known(s) && i < |s.pending| && s.pending[i].addr == addr
    ensures KeepsTrans(s, MemCallback(s, addr, i), x) && |MemCallback(s, addr, i).counters| == |s.counters|
  {
    hide Remove, QueuesKnown;
  }

  lemma BufKeeps(s: State, i: nat, x: nat)
    requires Known(s) && s.edramTrans != [] && i < |s.edramPending| && s.edramPending[i].addr == s.edramTrans[0]
    ensures KeepsTrans(s, BufCallback(s, i), x) && |BufCallback(s, i).counters| == |s.counters|
  {
    hide Remove, QueuesKnown;
  }

  // Any other call leaves the transactions of the events there are alone.
  lemma OtherStep(s: State, op: Op, x: nat)
    requires Inv(s) && !op.OpIssue?
    ensures var s' := Step(s, op);
            && KeepsTrans(s, s', x)
            && |s'.counters| == |s.counters| + (if op.OpAdd? then 1 else 0)
            && (op.OpAdd? ==> s'.counters[|s.counters|].event == op.event && s'.counters[|s.counters|].trans == 0)
  {
    InvKnown(s);
    hide Inv, Finds, QueuesKnown, MemCallback, BufCallback;
    match op {
      case OpDramReply(addr, pick) =>
        if pick < |s.pending| && s.pending[pick].addr == addr {
          MemKeeps(s, addr, pick, x);
        }
      case OpEdramReply(pick) =>
        if s.edramTrans != [] && pick < |s.edramPending| && s.edramPending[pick].addr == s.edramTrans[0] {
          BufKeeps(s, pick, x);
        }
      case _ =>
    }
  }

  lemma {:induction false} NoneOf(p: seq<Entry>, id: nat)
    requires forall i :: 0 <= i < |p| ==> p[i].id != id
    ensures AddrsOf(p, id) == []
  {
    if p != [] {
      NoneOf(p[..|p| - 1], id);
    }
  }

  lemma PendingKnown(s: State, i: nat)
    requires Inv(s) && i < |s.pending|
    ensures s.pending[i].id < |s.counters|
  {
  }

  lemma SomeKeepsEvents(s: State, id: nat, room: nat)
    requires 0 < s.block && id < |s.counters|
    ensures forall k :: 0 <= k < |s.counters| ==> IssueSome(s, id, room).counters[k].event == s.counters[k].event
  {
    forall k | 0 <= k < |s.counters|
      ensures IssueSome(s, id, room).counters[k].event == s.counters[k].event
    {
      var _ := IssueSomeGoes(s, id, room, k);
    }
  }

  lemma {:induction false} SomeEdramEvents(s: State, id: nat)
    requires 0 < s.block && id < |s.counters|
    ensures forall k :: 0 <= k < |s.counters| ==> IssueSomeEdram(s, id).counters[k].event == s.counters[k].event
    decreases TransPerClock - |s.edramTrans|
  {
    hide EdramAddr;
    if !(s.AllIssued(id) || |s.edramTrans| >= TransPerClock) {
      SomeEdramEvents(IssueOneEdram(s, id), id);
    }
  }

  lemma {:induction false} EdramEvents(s: State)
    requires 0 < s.block && forall i :: 0 <= i < |s.tmps| ==> s.tmps[i] < |s.counters|
    ensures var s' := IssueEdram(s);
            |s'.counters| == |s.counters| && forall k :: 0 <= k < |s.counters| ==> s'.counters[k].event == s.counters[k].event
    decreases |s.tmps|
  {
    hide IssueSomeEdram;
    if s.tmps != [] {
      var id := s.tmps[0];
      SomeEdramEvents(s, id);
      var s1 := IssueSomeEdram(s, id);
      if s1.AllIssued(id) && |s1.edramTrans| < TransPerClock {
        EdramEvents(s1.(tmps := s1.tmps[1..]));
      }
    }
  }

  lemma IssueEvents(s: State, room: nat, x: nat)
    requires Inv(s)
    ensures var s' := Step(s, OpIssue(room));
            |s'.counters| == |s.counters| && (x < |s.counters| ==> s'.counters[x].event == s.counters[x].event)
  {
    hide Inv, IssueDram, IssueEdram;
    InvKnown(s);
    IssueDramKnown(s, room);
    IssueDramInv(s, room);
    var s1 := IssueDram(s, room);
    InvTmps(s1);
    EdramEvents(s1);
    if x < |s.counters| {
      var tail := DramGoes(s, room, x);
      EventSame(s, s1, tail, x);
    }
    hide Goes;
  }

  // The events of a run, in the order of their arrival.
  function Added(ops: seq<Op>): seq<Event> {
    if ops == [] then []
    else Added(ops[..|ops| - 1]) + if ops[|ops| - 1].OpAdd? then [ops[|ops| - 1].event] else []
  }

  // What the invariant says of event x.
  predicate AskedOk(block: nat, s: State, added: seq<Event>, asked: seq<nat>, x: nat) {
    && |s.counters| == |added|
    && (x < |s.counters| ==> s.counters[x].event == added[x])
    && (x < |s.counters| && added[x].dir == Dram ==> asked == Blocks(added[x].address, block, 0, s.counters[x].trans))
    && (x >= |s.counters| ==> asked == [])
  }

  lemma {:induction false} AskedRun(block: nat, capacity: nat, ops: seq<Op>, x: nat)
    requires 0 < block && AllRoutable(ops)
    ensures AskedOk(block, Run(Init(block, capacity), ops), Added(ops), Asked(block, capacity, ops, x), x)
  {
    hide AskedOk, Inv, Step;
    if ops == [] {
      AskedFirst(block, capacity, x);
    } else {
      var front, op := ops[..|ops| - 1], ops[|ops| - 1];
      AskedRun(block, capacity, front, x);
      var s := Run(Init(block, capacity), front);
      RunInv(block, capacity, front);
      RunInv(block, capacity, ops);
      RunBlock(block, capacity, front);
      if op.OpIssue? {
        assert Added(ops) == Added(front);
        AskedIssue(s, op.room, Added(front), Asked(block, capacity, front, x), x);
      } else {
        assert Added(ops) == if op.OpAdd? then Added(front) + [op.event] else Added(front);
        assert Asked(block, capacity, ops, x) == Asked(block, capacity, front, x);
        AskedOther(s, op, Added(front), Asked(block, capacity, front, x), x);
      }
    }
  }

  lemma AskedFirst(block: nat, capacity: nat, x: nat)
    requires 0 < block
    ensures AskedOk(block, Init(block, capacity), [], [], x)
  {
  }

  lemma AskedOther(s: State, op: Op, added: seq<Event>, asked: seq<nat>, x: nat)
    requires Inv(s) && !op.OpIssue? && AskedOk(s.block, s, added, asked, x)
    ensures AskedOk(s.block, Step(s, op), if op.OpAdd? then added + [op.event] else added, asked, x)
  {
    hide Inv, Step, Blocks;
    OtherStep(s, op, x);
    assert Blocks(0, 0, 0, 0) == [];
    if op.OpAdd? && x == |s.counters| {
      assert Blocks(op.event.address, s.block, 0, 0) == [];
    }
  }

  lemma AskedIssue(s: State, room: nat, added: seq<Event>, asked: seq<nat>, x: nat)
    requires Inv(s) && Inv(Step(s, OpIssue(room))) && AskedOk(s.block, s, added, asked, x)
    ensures var s' := Step(s, OpIssue(room));
            AskedOk(s.block, s', added,
                    asked + if |s.pending| <= |s'.pending| then AddrsOf(s'.pending[|s.pending|..], x) else [], x)
  {
    hide Inv, Step, AddrsOf;
    InvKnown(s);
    IssueEvents(s, room, x);
    var s' := Step(s, OpIssue(room));
    if x < |s.counters| {
      if added[x].dir == Dram {
        var tail := IssueGoes(s, room, x);
        assert s'.pending[|s.pending|..] == tail;
        var c, c' := s.counters[x], s'.counters[x];
        BlocksJoin(c.event.address, s.block, c.trans, c'.trans - c.trans);
      }
    } else if |s.pending| <= |s'.pending| {
      forall i | 0 <= i < |s'.pending|
        ensures s'.pending[i].id != x
      {
        PendingKnown(s', i);
      }
      NoneOf(s'.pending[|s.pending|..], x);
    }
  }

  // ---------------------------------------------------------------- the theorems

  // On every run an event of the DRAM has asked for the blocks from its address on
  // without a gap, each once and in order, as many as it has counted.
  lemma AskedInOrder(block: nat, capacity: nat, ops: seq<Op>, x: nat)
    requires 0 < block && AllRoutable(ops) && x < |Added(ops)| && Added(ops)[x].dir == Dram
    ensures var s, asked := Run(Init(block, capacity), ops), Asked(block, capacity, ops, x);
            && x < |s.counters| && |asked| == s.counters[x].trans
            && forall k :: 0 <= k < |asked| ==> asked[k] == Added(ops)[x].address + block * k
  {
    AskedRun(block, capacity, ops, x);
  }

  // Byte b lies in the k-th block asked for and in no other.
  predicate InOneBlock(asked: seq<nat>, block: nat, b: nat, k: nat) {
    && k < |asked| && asked[k] <= b < asked[k] + block
    && forall j :: 0 <= j < |asked| && asked[j] <= b < asked[j] + block ==> j == k
  }

  // Once the event has been delivered, every byte it is about lies in exactly one
  // of the blocks it asked for, and each of these blocks starts among its bytes.
  lemma DeliveredBytesAsked(block: nat, capacity: nat, ops: seq<Op>, x: nat, b: nat)
    requires 0 < block && AllRoutable(ops) && x < |Added(ops)| && Added(ops)[x].dir == Dram
    requires Delivered(Run(Init(block, capacity), ops))[x] > 0
    requires Added(ops)[x].address <= b < Added(ops)[x].address + Added(ops)[x].bytes
    ensures var e, asked := Added(ops)[x], Asked(block, capacity, ops, x);
            && (exists k :: InOneBlock(asked, block, b, k))
            && (forall k :: 0 <= k < |asked| ==> e.address <= asked[k] < e.address + e.bytes)
  {
    hide *;
    AllAsked(block, capacity, ops, x);
    var e, asked := Added(ops)[x], Asked(block, capacity, ops, x);
    ByteInOne(e.address, block, e.bytes, asked, b);
    BlocksHaveBytes(e.address, block, e.bytes, asked);
  }

  lemma AllAsked(block: nat, capacity: nat, ops: seq<Op>, x: nat)
    requires 0 < block && AllRoutable(ops) && x < |Added(ops)| && Added(ops)[x].dir == Dram
    requires Added(ops)[x].bytes > 0 && Delivered(Run(Init(block, capacity), ops))[x] > 0
    ensures var e, asked := Added(ops)[x], Asked(block, capacity, ops, x);
            && |asked| == (e.bytes + block - 1) / block
            && forall k :: 0 <= k < |asked| ==> asked[k] == e.address + block * k
  {
    hide *;
    AskedCounters(block, capacity, ops, x);
    AskedInOrder(block, capacity, ops, x);
    DeliveredOnce(block, capacity, ops, x);
    NumTransIs(Added(ops)[x], block);
  }

  lemma NumTransIs(e: Event, block: nat)
    requires 0 < block
    ensures e.NumTrans(block) == (e.bytes + block - 1) / block
  {
  }

  lemma AskedCounters(block: nat, capacity: nat, ops: seq<Op>, x: nat)
    requires 0 < block && AllRoutable(ops) && x < |Added(ops)|
    ensures var s := Run(Init(block, capacity), ops); x < |s.counters| && s.counters[x].event == Added(ops)[x]
  {
    AskedRun(block, capacity, ops, x);
    hide Run, Asked, Added;
  }

  lemma ByteInOne(address: nat, block: nat, bytes: nat, asked: seq<nat>, b: nat)
    requires 0 < block && |asked| == (bytes + block - 1) / block && address <= b < address + bytes
    requires forall k :: 0 <= k < |asked| ==> asked[k] == address + block * k
    ensures exists k :: InOneBlock(asked, block, b, k)
  {
    var k := (b - address) / block;
    BlockOf(block, bytes, |asked|, b - address, k);
    assert asked[k] == address + block * k;
    forall j | 0 <= j < |asked| && asked[j] <= b < asked[j] + block
      ensures j == k
    {
      SameBlock(block, b - address, j, k);
    }
    assert InOneBlock(asked, block, b, k);
  }

  lemma BlockOf(block: nat, bytes: nat, n: nat, d: nat, k: nat)
    requires 0 < block && n == (bytes + block - 1) / block && d < bytes && k == d / block
    ensures k < n && block * k <= d < block * k + block
  {
    assert bytes + block - 1 == block * n + (bytes + block - 1) % block;
    assert k < n by {
      if k >= n {
        AtLeast(block, n, k);
      }
    }
  }

  lemma AtLeast(block: nat, j: nat, k: nat)
    requires j <= k
    ensures block * j <= block * k
  {
  }

  lemma SameBlock(block: nat, d: nat, j: nat, k: nat)
    requires 0 < block && block * j <= d < block * j + block && block * k <= d < block * k + block
    ensures j == k
  {
    if j < k {
      AtLeast(block, j + 1, k);
    } else if k < j {
      AtLeast(block, k + 1, j);
    }
  }

  lemma BlocksHaveBytes(address: nat, block: nat, bytes: nat, asked: seq<nat>)
    requires 0 < block && |asked| == (bytes + block - 1) / block
    requires forall k :: 0 <= k < |asked| ==> asked[k] == address + block * k
    ensures forall k :: 0 <= k < |asked| ==> address <= asked[k] < address + bytes
  {
    forall k | 0 <= k < |asked|
      ensures address <= asked[k] < address + bytes
    {
      LastBlock(block, bytes, |asked|, k);
    }
  }

  lemma LastBlock(block: nat, bytes: nat, n: nat, k: nat)
    requires 0 < block && n == (bytes + block - 1) / block && k < n
    ensures block * k < bytes
  {
    assert bytes + block - 1 == block * n + (bytes + block - 1) % block;
    AtLeast(block, k + 1, n);
  }
}
