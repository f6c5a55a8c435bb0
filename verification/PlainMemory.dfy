// Seen from outside the controller is a plain memory: every read is answered
// with the value of the last write to its address accepted before it, and every
// accepted transaction is answered exactly once.
module PlainMemory {
  import opened Basics
  import opened DramTypes
  import opened QueueSpec
  import opened ControllerSpec

  // The memory as the requester sees it: the value of an address after all the
  // transactions of the log.
  function Peek(log: seq<Transaction>, addr: int): int {
    if log == [] then 0
    else
      var last := log[|log| - 1];
      if last.isWrite && last.addr == addr then last.data else Peek(log[..|log| - 1], addr)
  }

  // What the transaction with this id has to see.
  function Expected(log: seq<Transaction>, id: nat): int
    requires id < |log|
  {
    Peek(log[..id], log[id].addr)
  }

  predicate ResponseOk(log: seq<Transaction>, r: Transaction) {
    && r.id < |log|
    && r.addr == log[r.id].addr && r.isWrite == log[r.id].isWrite
    && (!r.isWrite ==> r.data == Expected(log, r.id))
  }

  predicate AllOk(log: seq<Transaction>, q: seq<Transaction>) {
    forall i :: 0 <= i < |q| ==> ResponseOk(log, q[i])
  }

  // A waiting read is owed the present content of its cell.
  predicate WaitingOk(log: seq<Transaction>, r: Transaction, addr: int, value: int) {
    && r.id < |log|
    && r.addr == addr && log[r.id].addr == addr
    && !r.isWrite && !log[r.id].isWrite
    && Expected(log, r.id) == value
  }

  // Buffered writes are ahead of the memory cells, nothing else is.
  ghost predicate BufferAgrees(log: seq<Transaction>, memory: map<int, int>, wr: map<int, Transaction>) {
    forall a {:trigger Peek(log, a)} :: Peek(log, a) == if a in wr then wr[a].data else Cell(memory, a)
  }

  ghost predicate ReadersAgree(log: seq<Transaction>, memory: map<int, int>, rd: map<int, seq<Transaction>>) {
    forall a, i {:trigger rd[a][i]} :: a in rd && 0 <= i < |rd[a]| ==> WaitingOk(log, rd[a][i], a, Cell(memory, a))
  }

  // How often an id occurs.
  function Count(q: seq<Transaction>, id: nat): nat {
    if q == [] then 0 else Count(q[..|q| - 1], id) + if q[|q| - 1].id == id then 1 else 0
  }

  function CountWaiting(rd: map<int, seq<Transaction>>, addr: int, id: nat): nat {
    if addr in rd then Count(rd[addr], id) else 0
  }

  predicate LogOk(log: seq<Transaction>) {
    forall i :: 0 <= i < |log| ==> log[i].id == i
  }

  ghost predicate AnsweredOnce(log: seq<Transaction>, rd: map<int, seq<Transaction>>, q: seq<Transaction>, done: seq<Transaction>) {
    forall id: nat {:trigger Count(q, id)} :: id < |log| ==>
      CountWaiting(rd, log[id].addr, id) + Count(q, id) + Count(done, id) == 1
  }

  // The part of the controller's state that carries data.
  datatype Books = Books(
    log: seq<Transaction>, memory: map<int, int>,
    rd: map<int, seq<Transaction>>, wr: map<int, Transaction>,
    returnQ: seq<Transaction>, returned: seq<Transaction>)

  function BooksOf(s: Ctrl): Books {
    Books(s.log, s.memory, s.pendingRd, s.pendingWr, s.returnQ, s.returned)
  }

  ghost predicate Faithful(b: Books) {
    && LogOk(b.log)
    && BufferAgrees(b.log, b.memory, b.wr)
    && ReadersAgree(b.log, b.memory, b.rd)
    && AllOk(b.log, b.returnQ) && AllOk(b.log, b.returned)
    && AnsweredOnce(b.log, b.rd, b.returnQ, b.returned)
  }

  // ---------------------------------------------------------------- counting

  lemma CountAppend(q: seq<Transaction>, t: Transaction, id: nat)
    ensures Count(q + [t], id) == Count(q, id) + if t.id == id then 1 else 0
  {
    assert (q + [t])[..|q|] == q;
  }

  lemma {:induction false} CountConcat(p: seq<Transaction>, q: seq<Transaction>, id: nat)
    ensures Count(p + q, id) == Count(p, id) + Count(q, id)
  {
    if q == [] {
      assert p + q == p;
    } else {
      var n := |q| - 1;
      CountConcat(p, q[..n], id);
      assert p + q == (p + q[..n]) + [q[n]];
      CountAppend(p + q[..n], q[n], id);
    }
  }

  lemma {:induction false} CountRemove(q: seq<Transaction>, i: nat, id: nat)
    requires i < |q|
    ensures Count(q, id) == Count(Remove(q, i), id) + if q[i].id == id then 1 else 0
  {
    CountConcat(q[..i], q[i + 1..], id);
    CountConcat(q[..i] + [q[i]], q[i + 1..], id);
    CountAppend(q[..i], q[i], id);
    assert q == (q[..i] + [q[i]]) + q[i + 1..];
  }

  lemma {:induction false} CountAbsent(q: seq<Transaction>, id: nat)
    requires forall i :: 0 <= i < |q| ==> q[i].id != id
    ensures Count(q, id) == 0
  {
    if q != [] {
      CountAbsent(q[..|q| - 1], id);
    }
  }

  lemma {:induction false} CountAnswered(w: seq<Transaction>, data: int, complete: nat, id: nat)
    ensures Count(Answered(w, data, complete), id) == Count(w, id)
  {
    if w != [] {
      var n := |w| - 1;
      CountAnswered(w[..n], data, complete, id);
      assert Answered(w, data, complete)[..n] == Answered(w[..n], data, complete);
    }
  }

  // ------------------------------------------------------------ a growing log

  lemma LogGrows(log: seq<Transaction>, t: Transaction, id: nat)
    requires id < |log|
    ensures Expected(log + [t], id) == Expected(log, id)
  {
    assert (log + [t])[..id] == log[..id];
  }

  lemma OldResponsesStay(log: seq<Transaction>, t: Transaction, q: seq<Transaction>)
    requires AllOk(log, q)
    ensures AllOk(log + [t], q)
  {
    forall i | 0 <= i < |q|
      ensures ResponseOk(log + [t], q[i])
    {
      LogGrows(log, t, q[i].id);
    }
  }

  lemma OldReadersStay(log: seq<Transaction>, t: Transaction, memory: map<int, int>, rd: map<int, seq<Transaction>>)
    requires ReadersAgree(log, memory, rd)
    ensures ReadersAgree(log + [t], memory, rd)
  {
    forall a, i | a in rd && 0 <= i < |rd[a]|
      ensures WaitingOk(log + [t], rd[a][i], a, Cell(memory, a))
    {
      LogGrows(log, t, rd[a][i].id);
    }
  }

  lemma PeekAppend(log: seq<Transaction>, t: Transaction, a: int)
    ensures Peek(log + [t], a) == if t.isWrite && t.addr == a then t.data else Peek(log, a)
  {
    assert (log + [t])[..|log|] == log;
  }

  // Nothing that has been accepted bears the next id.
  lemma NextIdIsNew(b: Books)
    requires Faithful(b)
    ensures Count(b.returnQ, |b.log|) == 0 && Count(b.returned, |b.log|) == 0
    ensures forall a {:trigger CountWaiting(b.rd, a, |b.log|)} :: CountWaiting(b.rd, a, |b.log|) == 0
  {
    CountAbsent(b.returnQ, |b.log|) by {
      forall i | 0 <= i < |b.returnQ|
        ensures b.returnQ[i].id != |b.log|
      {
        assert ResponseOk(b.log, b.returnQ[i]);
      }
    }
    CountAbsent(b.returned, |b.log|) by {
      forall i | 0 <= i < |b.returned|
        ensures b.returned[i].id != |b.log|
      {
        assert ResponseOk(b.log, b.returned[i]);
      }
    }
    forall a | a in b.rd
      ensures CountWaiting(b.rd, a, |b.log|) == 0
    {
      forall i | 0 <= i < |b.rd[a]|
        ensures b.rd[a][i].id != |b.log|
      {
        assert WaitingOk(b.log, b.rd[a][i], a, Cell(b.memory, a));
      }
      CountAbsent(b.rd[a], |b.log|);
    }
  }

  // --------------------------------------------------------------- accepting

  lemma OneMoreAnswer(b: Books, t: Transaction, r: Transaction)
    requires Faithful(b) && t.id == |b.log| && r.id == t.id
    ensures AnsweredOnce(b.log + [t], b.rd, b.returnQ + [r], b.returned)
  {
    NextIdIsNew(b);
    var log' := b.log + [t];
    forall id: nat | id < |log'|
      ensures CountWaiting(b.rd, log'[id].addr, id) + Count(b.returnQ + [r], id) + Count(b.returned, id) == 1
    {
      CountAppend(b.returnQ, r, id);
      if id < |b.log| {
        assert CountWaiting(b.rd, b.log[id].addr, id) + Count(b.returnQ, id) + Count(b.returned, id) == 1;
      } else {
        assert CountWaiting(b.rd, t.addr, |b.log|) == 0;
      }
    }
  }

  // A response that is ready at once: to a write, or to a read forwarded from
  // the write buffer.
  lemma AnswerNow(b: Books, t: Transaction, r: Transaction, wr': map<int, Transaction>)
    requires Faithful(b) && t.id == |b.log|
    requires r.id == t.id && r.addr == t.addr && r.isWrite == t.isWrite
    requires !t.isWrite ==> t.addr in b.wr && r.data == b.wr[t.addr].data && wr' == b.wr
    requires t.isWrite ==> t.addr in wr' && wr' == b.wr[t.addr := wr'[t.addr]] && wr'[t.addr].data == t.data
    ensures Faithful(b.(log := b.log + [t], wr := wr', returnQ := b.returnQ + [r]))
  {
    var log' := b.log + [t];
    forall a
      ensures Peek(log', a) == if a in wr' then wr'[a].data else Cell(b.memory, a)
    {
      PeekAppend(b.log, t, a);
      assert Peek(b.log, a) == if a in b.wr then b.wr[a].data else Cell(b.memory, a);
    }
    OldReadersStay(b.log, t, b.memory, b.rd);
    OldResponsesStay(b.log, t, b.returnQ);
    OldResponsesStay(b.log, t, b.returned);
    assert ResponseOk(log', r) by {
      assert log'[..|b.log|] == b.log;
      assert Expected(log', t.id) == Peek(b.log, t.addr);
    }
    OneMoreAnswer(b, t, r);
  }

  lemma OneMoreReader(b: Books, t: Transaction, rd': map<int, seq<Transaction>>)
    requires Faithful(b) && t.id == |b.log|
    requires rd' == b.rd[t.addr := (if t.addr in b.rd then b.rd[t.addr] else []) + [t]]
    ensures AnsweredOnce(b.log + [t], rd', b.returnQ, b.returned)
  {
    NextIdIsNew(b);
    var log' := b.log + [t];
    var old' := if t.addr in b.rd then b.rd[t.addr] else [];
    forall id: nat | id < |log'|
      ensures CountWaiting(rd', log'[id].addr, id) + Count(b.returnQ, id) + Count(b.returned, id) == 1
    {
      CountAppend(old', t, id);
      if id < |b.log| {
        assert CountWaiting(b.rd, b.log[id].addr, id) + Count(b.returnQ, id) + Count(b.returned, id) == 1;
      } else {
        assert CountWaiting(b.rd, t.addr, |b.log|) == 0;
      }
    }
  }

  // A read that has to wait is owed the present content of its cell.
  lemma AnswerLater(b: Books, t: Transaction, rd': map<int, seq<Transaction>>)
    requires Faithful(b) && t.id == |b.log| && !t.isWrite && t.addr !in b.wr
    requires rd' == b.rd[t.addr := (if t.addr in b.rd then b.rd[t.addr] else []) + [t]]
    ensures Faithful(b.(log := b.log + [t], rd := rd'))
  {
    var log' := b.log + [t];
    forall a
      ensures Peek(log', a) == if a in b.wr then b.wr[a].data else Cell(b.memory, a)
    {
      PeekAppend(b.log, t, a);
      assert Peek(b.log, a) == if a in b.wr then b.wr[a].data else Cell(b.memory, a);
    }
    OldReadersStay(b.log, t, b.memory, b.rd);
    assert WaitingOk(log', t, t.addr, Cell(b.memory, t.addr)) by {
      assert log'[..|b.log|] == b.log;
      assert Expected(log', t.id) == Peek(b.log, t.addr);
    }
    forall a, i | a in rd' && 0 <= i < |rd'[a]|
      ensures WaitingOk(log', rd'[a][i], a, Cell(b.memory, a))
    {
      if a in b.rd && i < |b.rd[a]| {
        assert WaitingOk(log', b.rd[a][i], a, Cell(b.memory, a));
      }
    }
    OldResponsesStay(b.log, t, b.returnQ);
    OldResponsesStay(b.log, t, b.returned);
    OneMoreReader(b, t, rd');
  }

  lemma AcceptFaithful(cfg: Config, s: Ctrl, addr: int, isWrite: bool, data: int)
    requires Faithful(BooksOf(s))
    ensures Faithful(BooksOf(Accept(cfg, s, addr, isWrite, data)))
  {
    var t := Transaction(addr, isWrite, |s.log|, data, s.clk, 0);
    var s' := Accept(cfg, s, addr, isWrite, data);
    var b := BooksOf(s);
    if isWrite || addr in s.pendingWr {
      AnswerNow(b, t, s'.returnQ[|s.returnQ|], s'.pendingWr);
      assert BooksOf(s') == b.(log := b.log + [t], wr := s'.pendingWr, returnQ := b.returnQ + [s'.returnQ[|s.returnQ|]]);
    } else {
      assert [] + [t] == [t];
      AnswerLater(b, t, s'.pendingRd);
      assert BooksOf(s') == b.(log := b.log + [t], rd := s'.pendingRd);
    }
  }

  // ----------------------------------------------------------------- issuing

  lemma WriteBack(b: Books, addr: int)
    requires Faithful(b) && addr in b.wr && addr !in b.rd
    ensures Faithful(b.(memory := b.memory[addr := b.wr[addr].data], wr := b.wr - {addr}))
  {
    var memory' := b.memory[addr := b.wr[addr].data];
    forall a
      ensures Peek(b.log, a) == if a in b.wr - {addr} then (b.wr - {addr})[a].data else Cell(memory', a)
    {
      assert Peek(b.log, a) == if a in b.wr then b.wr[a].data else Cell(b.memory, a);
    }
    forall a, i | a in b.rd && 0 <= i < |b.rd[a]|
      ensures WaitingOk(b.log, b.rd[a][i], a, Cell(memory', a))
    {
      assert WaitingOk(b.log, b.rd[a][i], a, Cell(b.memory, a));
    }
  }

  lemma NoForeignReader(b: Books, addr: int, id: nat)
    requires ReadersAgree(b.log, b.memory, b.rd) && addr in b.rd && id < |b.log| && b.log[id].addr != addr
    ensures Count(b.rd[addr], id) == 0
  {
    forall i | 0 <= i < |b.rd[addr]|
      ensures b.rd[addr][i].id != id
    {
      assert WaitingOk(b.log, b.rd[addr][i], addr, Cell(b.memory, addr));
    }
    CountAbsent(b.rd[addr], id);
  }

  lemma MoreAnswers(b: Books, addr: int, data: int, complete: nat)
    requires Faithful(b) && addr in b.rd
    ensures AnsweredOnce(b.log, b.rd - {addr}, b.returnQ + Answered(b.rd[addr], data, complete), b.returned)
  {
    var w := b.rd[addr];
    var ready := Answered(w, data, complete);
    forall id: nat | id < |b.log|
      ensures CountWaiting(b.rd - {addr}, b.log[id].addr, id) + Count(b.returnQ + ready, id) + Count(b.returned, id) == 1
    {
      CountConcat(b.returnQ, ready, id);
      CountAnswered(w, data, complete, id);
      assert CountWaiting(b.rd, b.log[id].addr, id) + Count(b.returnQ, id) + Count(b.returned, id) == 1;
      if b.log[id].addr != addr {
        NoForeignReader(b, addr, id);
      }
    }
  }

  lemma ReadOut(b: Books, addr: int, complete: nat)
    requires Faithful(b) && addr in b.rd
    ensures Faithful(b.(rd := b.rd - {addr},
                        returnQ := b.returnQ + Answered(b.rd[addr], Cell(b.memory, addr), complete)))
  {
    var ready := Answered(b.rd[addr], Cell(b.memory, addr), complete);
    forall i | 0 <= i < |ready|
      ensures ResponseOk(b.log, ready[i])
    {
      assert WaitingOk(b.log, b.rd[addr][i], addr, Cell(b.memory, addr));
    }
    forall a, i | a in b.rd - {addr} && 0 <= i < |(b.rd - {addr})[a]|
      ensures WaitingOk(b.log, (b.rd - {addr})[a][i], a, Cell(b.memory, a))
    {
      assert WaitingOk(b.log, b.rd[a][i], a, Cell(b.memory, a));
    }
    MoreAnswers(b, addr, Cell(b.memory, addr), complete);
  }

  lemma IssueFaithful(cfg: Config, s: Ctrl, c: Command)
    requires Faithful(BooksOf(s)) && !IssueData(cfg, s, c).halted
    requires c.IsWrite() ==> c.hexAddr !in s.pendingRd
    ensures Faithful(BooksOf(IssueData(cfg, s, c)))
  {
    if c.IsRead() && c.hexAddr in s.pendingRd {
      ReadOut(BooksOf(s), c.hexAddr, s.clk + cfg.readDelay);
    } else if c.IsWrite() && c.hexAddr in s.pendingWr {
      WriteBack(BooksOf(s), c.hexAddr);
    }
  }

  // -------------------------------------------------------------- delivering

  lemma DeliverFaithful(s: Ctrl, at: nat)
    requires Faithful(BooksOf(s))
    ensures Faithful(BooksOf(Deliver(s, at)))
  {
    var i := FirstDone(s.returnQ, at);
    if i < |s.returnQ| {
      var b := BooksOf(s);
      var q', done' := Remove(b.returnQ, i), b.returned + [b.returnQ[i]];
      assert forall j :: 0 <= j < |q'| ==> q'[j] == if j < i then b.returnQ[j] else b.returnQ[j + 1];
      assert ResponseOk(b.log, b.returnQ[i]);
      forall id: nat | id < |b.log|
        ensures CountWaiting(b.rd, b.log[id].addr, id) + Count(q', id) + Count(done', id) == 1
      {
        CountRemove(b.returnQ, i, id);
        CountAppend(b.returned, b.returnQ[i], id);
        assert CountWaiting(b.rd, b.log[id].addr, id) + Count(b.returnQ, id) + Count(b.returned, id) == 1;
      }
    }
  }
}
