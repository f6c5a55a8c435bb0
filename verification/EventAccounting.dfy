// Every event is delivered exactly once, when the last of its transactions has
// been confirmed, whatever the order of the replies and whichever of several
// entries with the same address a lookup finds.
module EventAccounting {
  import opened Basics
  import opened EventSpec

  // ------------------------------------------------------------ projections

  function Ids(p: seq<Entry>): (q: seq<nat>)
    ensures |q| == |p|
  {
    seq(|p|, i requires 0 <= i < |p| => p[i].id)
  }

  function Addrs(p: seq<Entry>): (q: seq<nat>)
    ensures |q| == |p|
  {
    seq(|p|, i requires 0 <= i < |p| => p[i].addr)
  }

  lemma Push(q: seq<nat>, x: nat)
    ensures multiset(q + [x]) == multiset(q) + multiset{x}
  {
  }

  lemma Pop(q: seq<nat>)
    requires q != []
    ensures multiset(q) == multiset(q[1..]) + multiset{q[0]}
  {
    assert q == [q[0]] + q[1..];
  }

  lemma Drop(q: seq<nat>, i: nat)
    requires i < |q|
    ensures multiset(q) == multiset(Remove(q, i)) + multiset{q[i]}
  {
    assert q == q[..i] + [q[i]] + q[i + 1..];
  }

  lemma EntryPush(p: seq<Entry>, e: Entry)
    ensures Ids(p + [e]) == Ids(p) + [e.id] && Addrs(p + [e]) == Addrs(p) + [e.addr]
  {
  }

  lemma EntryDrop(p: seq<Entry>, i: nat)
    requires i < |p|
    ensures multiset(Ids(p)) == multiset(Ids(Remove(p, i))) + multiset{p[i].id}
    ensures multiset(Addrs(p)) == multiset(Addrs(Remove(p, i))) + multiset{p[i].addr}
  {
    assert Ids(Remove(p, i)) == Remove(Ids(p), i);
    assert Addrs(Remove(p, i)) == Remove(Addrs(p), i);
    Drop(Ids(p), i);
    Drop(Addrs(p), i);
  }

  // ------------------------------------------------------------- invariant

  // The events that are queued, in flight (once for every transaction) and delivered.
  function Queued(s: State): multiset<nat> {
    multiset(s.edges) + multiset(s.inputs) + multiset(s.weights) + multiset(s.outputs) + multiset(s.tmps)
  }

  function InFlight(s: State): multiset<nat> {
    multiset(Ids(s.pending)) + multiset(Ids(s.edramPending))
  }

  function Delivered(s: State): multiset<nat> {
    multiset(s.dramReturn) + multiset(s.edramReturn) + multiset(s.handled)
  }

  // One event's books: what is issued and not confirmed is in flight, what is not
  // issued is queued, and it is delivered once, when all is confirmed.
  predicate Balanced(c: Counters, num: nat, queued: nat, flying: nat, delivered: nat) {
    && c.confirm + flying == c.trans <= num
    && queued <= 1 && (c.trans < num ==> queued == 1)
    && delivered == (if num > 0 && c.confirm == num then 1 else 0)
  }

  predicate BooksOk(s: State, id: nat)
    requires 0 < s.block && id < |s.counters|
  {
    Balanced(s.counters[id], s.Num(id), Queued(s)[id], InFlight(s)[id], Delivered(s)[id])
  }

  ghost predicate AllBooks(s: State)
    requires 0 < s.block
  {
    forall id: nat :: id < |s.counters| ==> BooksOk(s, id)
  }

  // A number that has not been given out occurs nowhere.
  ghost predicate Fresh(s: State) {
    forall id: nat :: id >= |s.counters| ==> Queued(s)[id] == 0 && InFlight(s)[id] == 0 && Delivered(s)[id] == 0
  }

  ghost predicate Books(s: State) { 0 < s.block && AllBooks(s) && Fresh(s) }

  predicate DirsOk(s: State)
    requires EntriesKnown(s) && QueuesKnown(s)
  {
    && (forall i :: 0 <= i < |s.pending| ==> s.counters[s.pending[i].id].event.dir == Dram)
    && (forall i :: 0 <= i < |s.edramPending| ==> s.counters[s.edramPending[i].id].event.dir == Edram)
    && (forall i :: 0 <= i < |s.edges| ==> s.counters[s.edges[i]].event.dir == Dram)
    && (forall i :: 0 <= i < |s.inputs| ==> s.counters[s.inputs[i]].event.dir == Dram)
    && (forall i :: 0 <= i < |s.weights| ==> s.counters[s.weights[i]].event.dir == Dram)
    && (forall i :: 0 <= i < |s.outputs| ==> s.counters[s.outputs[i]].event.dir == Dram)
    && (forall i :: 0 <= i < |s.tmps| ==> s.counters[s.tmps[i]].event.dir == Edram)
  }

  predicate AddrsOk(s: State) {
    multiset(Addrs(s.pending)) == s.busy && multiset(Addrs(s.edramPending)) == multiset(s.edramTrans)
  }

  // Everything but the books.
  ghost predicate Shape(s: State) { Known(s) && !s.failed && DirsOk(s) && AddrsOk(s) }

  ghost predicate Inv(s: State) { Shape(s) && Books(s) }

  // --------------------------------------------------------- one event moves

  predicate OneMore(a: multiset<nat>, b: multiset<nat>, x: nat) { b == a + multiset{x} }

  // How the books of an event may change, everything else staying.
  datatype Move = Moved(queued: int, flying: int, delivered: int)

  predicate BagMoves(a: multiset<nat>, b: multiset<nat>, x: nat, by_: int) {
    match by_
    case 0 => b == a
    case 1 => OneMore(a, b, x)
    case _ => OneMore(b, a, x)
  }

  lemma BagCounts(a: multiset<nat>, b: multiset<nat>, x: nat, by_: int, k: nat)
    requires BagMoves(a, b, x, by_) && -1 <= by_ <= 1
    ensures b[k] == if k == x then a[k] + by_ else a[k]
  {
  }

  ghost predicate Moves(s: State, s': State, id: nat, m: Move) {
    && s'.block == s.block && id < |s.counters| == |s'.counters|
    && (forall k :: 0 <= k < |s.counters| && k != id ==> s'.counters[k] == s.counters[k])
    && -1 <= m.queued <= 1 && -1 <= m.flying <= 1 && -1 <= m.delivered <= 1
    && BagMoves(Queued(s), Queued(s'), id, m.queued)
    && BagMoves(InFlight(s), InFlight(s'), id, m.flying)
    && BagMoves(Delivered(s), Delivered(s'), id, m.delivered)
  }

  lemma MovesAt(s: State, s': State, id: nat, m: Move, k: nat)
    requires Moves(s, s', id, m)
    ensures Queued(s')[k] == Queued(s)[k] + (if k == id then m.queued else 0)
    ensures InFlight(s')[k] == InFlight(s)[k] + (if k == id then m.flying else 0)
    ensures Delivered(s')[k] == Delivered(s)[k] + (if k == id then m.delivered else 0)
  {
    BagCounts(Queued(s), Queued(s'), id, m.queued, k);
    BagCounts(InFlight(s), InFlight(s'), id, m.flying, k);
    BagCounts(Delivered(s), Delivered(s'), id, m.delivered, k);
  }

  lemma OtherBooks(s: State, s': State, id: nat, m: Move, k: nat)
    requires Books(s) && Moves(s, s', id, m) && k != id
    ensures k < |s.counters| ==> BooksOk(s', k)
    ensures k >= |s.counters| ==> Queued(s')[k] == 0 && InFlight(s')[k] == 0 && Delivered(s')[k] == 0
  {
    MovesAt(s, s', id, m, k);
    if k < |s.counters| {
      assert BooksOk(s, k);
    }
  }

  lemma BooksMove(s: State, s': State, id: nat, m: Move)
    requires Books(s) && Moves(s, s', id, m) && BooksOk(s', id)
    ensures Books(s')
  {
    forall k: nat | k < |s'.counters|
      ensures BooksOk(s', k)
    {
      if k != id {
        OtherBooks(s, s', id, m, k);
      }
    }
    forall k: nat | k >= |s'.counters|
      ensures Queued(s')[k] == 0 && InFlight(s')[k] == 0 && Delivered(s')[k] == 0
    {
      OtherBooks(s, s', id, m, k);
    }
  }

  // ------------------------------------------------------------------- adding

  // Five bags added up, with one of them set apart.
  function Five(a: multiset<nat>, b: multiset<nat>, c: multiset<nat>, d: multiset<nat>, e: multiset<nat>): multiset<nat> {
    a + b + c + d + e
  }

  lemma FiveMore(a: multiset<nat>, b: multiset<nat>, c: multiset<nat>, d: multiset<nat>, e: multiset<nat>, x: multiset<nat>)
    ensures Five(a + x, b, c, d, e) == Five(a, b, c, d, e) + x
    ensures Five(a, b + x, c, d, e) == Five(a, b, c, d, e) + x
    ensures Five(a, b, c + x, d, e) == Five(a, b, c, d, e) + x
    ensures Five(a, b, c, d + x, e) == Five(a, b, c, d, e) + x
    ensures Five(a, b, c, d, e + x) == Five(a, b, c, d, e) + x
  {
  }

  function QueueBag(s: State): multiset<nat> {
    Five(multiset(s.edges), multiset(s.inputs), multiset(s.weights), multiset(s.outputs), multiset(s.tmps))
  }

  lemma AddBags(s: State, e: Event)
    requires e.Routable()
    ensures OneMore(Queued(s), Queued(AddEvent(s, e)), |s.counters|)
  {
    var id := |s.counters|;
    FiveMore(multiset(s.edges), multiset(s.inputs), multiset(s.weights), multiset(s.outputs), multiset(s.tmps), multiset{id});
    match e.data {
      case Edge => Push(s.edges, id);
      case InputFeature => Push(s.inputs, id);
      case Weight => Push(s.weights, id);
      case OutputFeature => Push(s.outputs, id);
      case AggrFeature => Push(s.tmps, id);
      case NoData =>
    }
    assert QueueBag(AddEvent(s, e)) == QueueBag(s) + multiset{id};
  }

  lemma AddOthers(s: State, e: Event)
    ensures var s' := AddEvent(s, e);
            && InFlight(s') == InFlight(s) && Delivered(s') == Delivered(s) && s'.block == s.block
            && s'.counters == s.counters + [Counters(e, 0, 0)]
  {
  }

  lemma FreshAt(s: State, k: nat)
    requires Books(s)
    ensures if k < |s.counters| then BooksOk(s, k) else Queued(s)[k] == 0 && InFlight(s)[k] == 0 && Delivered(s)[k] == 0
  {
  }

  lemma NewBook(s: State, s': State, e: Event, k: nat)
    requires 0 < s.block == s'.block && s'.counters == s.counters + [Counters(e, 0, 0)] && k <= |s.counters|
    requires if k < |s.counters| then BooksOk(s, k) else Queued(s)[k] == 0 && InFlight(s)[k] == 0 && Delivered(s)[k] == 0
    requires Queued(s')[k] == Queued(s)[k] + (if k == |s.counters| then 1 else 0)
    requires InFlight(s')[k] == InFlight(s)[k] && Delivered(s')[k] == Delivered(s)[k]
    ensures BooksOk(s', k)
  {
  }

  lemma MoreMoves(a: multiset<nat>, b: multiset<nat>, x: nat, k: nat)
    requires OneMore(a, b, x)
    ensures b[k] == a[k] + if k == x then 1 else 0
  {
  }

  lemma HasBlock(s: State)
    requires Books(s)
    ensures 0 < s.block
  {
  }

  lemma AddBook(s: State, e: Event, k: nat)
    requires Books(s) && e.Routable()
    ensures 0 < AddEvent(s, e).block && |AddEvent(s, e).counters| == |s.counters| + 1
    ensures k <= |s.counters| ==> BooksOk(AddEvent(s, e), k)
    ensures var s' := AddEvent(s, e);
            k > |s.counters| ==> Queued(s')[k] == 0 && InFlight(s')[k] == 0 && Delivered(s')[k] == 0
  {
    hide *;
    var s' := AddEvent(s, e);
    HasBlock(s);
    AddBags(s, e);
    AddOthers(s, e);
    MoreMoves(Queued(s), Queued(s'), |s.counters|, k);
    FreshAt(s, k);
    if k <= |s.counters| {
      NewBook(s, s', e, k);
    }
  }

  lemma AddBooks(s: State, e: Event)
    requires Books(s) && e.Routable()
    ensures Books(AddEvent(s, e))
  {
    var s' := AddEvent(s, e);
    forall k: nat | k < |s'.counters|
      ensures BooksOk(s', k)
    {
      AddBook(s, e, k);
    }
    forall k: nat | k >= |s'.counters|
      ensures Queued(s')[k] == 0 && InFlight(s')[k] == 0 && Delivered(s')[k] == 0
    {
      AddBook(s, e, k);
    }
  }

  lemma AddShape(s: State, e: Event)
    requires Shape(s) && e.Routable()
    ensures Shape(AddEvent(s, e))
  {
    AddKnown(s, e);
    AddDirs(s, e);
    AddFields(s, e);
    hide AddEvent, Known, DirsOk, Addrs;
  }

  lemma AddDirs(s: State, e: Event)
    requires Shape(s) && e.Routable() && Known(AddEvent(s, e))
    ensures DirsOk(AddEvent(s, e))
  {
    var s0 := s.(counters := s.counters + [Counters(e, 0, 0)]);
    CountedDirs(s, e);
    hide AddrsOk, Known;
    AddsToOne(s, e);
    JoinDirs(s0, AddEvent(s, e), e);
    hide AddEvent, DirsOk;
  }

  lemma CountedDirs(s: State, e: Event)
    requires Known(s) && DirsOk(s)
    ensures var s0 := s.(counters := s.counters + [Counters(e, 0, 0)]); Known(s0) && DirsOk(s0)
  {
  }

  // The new event is the last one known, and joins one queue at most.
  predicate Joins(s: State, s': State, id: nat, e: Event) {
    && s'.counters == s.counters && s'.pending == s.pending && s'.edramPending == s.edramPending
    && (s'.tmps == s.tmps || (s'.tmps == s.tmps + [id] && e.dir == Edram))
    && (s'.edges == s.edges || (s'.edges == s.edges + [id] && e.dir == Dram))
    && (s'.inputs == s.inputs || (s'.inputs == s.inputs + [id] && e.dir == Dram))
    && (s'.weights == s.weights || (s'.weights == s.weights + [id] && e.dir == Dram))
    && (s'.outputs == s.outputs || (s'.outputs == s.outputs + [id] && e.dir == Dram))
  }

  lemma AddsToOne(s: State, e: Event)
    requires e.Routable()
    ensures Joins(s.(counters := s.counters + [Counters(e, 0, 0)]), AddEvent(s, e), |s.counters|, e)
  {
  }

  lemma JoinDirs(s: State, s': State, e: Event)
    requires Known(s) && DirsOk(s) && Known(s') && s.counters != [] && s.counters[|s.counters| - 1].event == e
    requires Joins(s, s', |s.counters| - 1, e)
    ensures DirsOk(s')
  {
    hide Known;
  }

  lemma AddFields(s: State, e: Event)
    requires e.Routable()
    ensures var s' := AddEvent(s, e);
            && s'.failed == s.failed && s'.pending == s.pending && s'.busy == s.busy
            && s'.edramPending == s.edramPending && s'.edramTrans == s.edramTrans
  {
  }

  // ------------------------------------------------------------------ issuing

  lemma IssueMoves(s: State, id: nat, p: seq<Entry>, a: nat)
    requires id < |s.counters| && p == s.pending && a == NextAddr(s, id)
    ensures Moves(s, IssueOne(s, id), id, Moved(0, 1, 0))
  {
    EntryPush(p, Entry(a, id));
    Push(Ids(p), id);
  }

  lemma IssueOneBooks(s: State, id: nat)
    requires Books(s) && id < |s.counters| && !s.AllIssued(id)
    ensures Books(IssueOne(s, id))
  {
    IssueMoves(s, id, s.pending, NextAddr(s, id));
    MovesAt(s, IssueOne(s, id), id, Moved(0, 1, 0), id);
    assert BooksOk(s, id);
    BooksMove(s, IssueOne(s, id), id, Moved(0, 1, 0));
  }

  lemma IssueOneShape(s: State, id: nat)
    requires Shape(s) && id < |s.counters| && s.counters[id].event.dir == Dram
    ensures Shape(IssueOne(s, id))
  {
    var a := NextAddr(s, id);
    EntryPush(s.pending, Entry(a, id));
    Push(Addrs(s.pending), a);
  }

  lemma {:induction false} IssueSomeInv(s: State, id: nat, room: nat)
    requires Inv(s) && id < |s.counters| && s.counters[id].event.dir == Dram
    ensures Inv(IssueSome(s, id, room))
    decreases room
  {
    if !s.AllIssued(id) && room > 0 {
      IssueOneBooks(s, id);
      IssueOneShape(s, id);
      IssueSomeInv(IssueOne(s, id), id, room - 1);
    }
  }

  lemma PopBags(s: State, c: Choice)
    requires QueueOf(s, c) != []
    ensures OneMore(Queued(PopFrom(s, c)), Queued(s), QueueOf(s, c)[0])
  {
    var s', id := PopFrom(s, c), QueueOf(s, c)[0];
    Pop(QueueOf(s, c));
    FiveMore(multiset(s'.edges), multiset(s'.inputs), multiset(s'.weights), multiset(s'.outputs), multiset(s'.tmps), multiset{id});
    assert QueueBag(s) == QueueBag(s') + multiset{id};
  }

  lemma PopMoves(s: State, c: Choice)
    requires QueueOf(s, c) != [] && QueueOf(s, c)[0] < |s.counters|
    ensures Moves(s, PopFrom(s, c), QueueOf(s, c)[0], Moved(-1, 0, 0))
  {
    PopBags(s, c);
  }

  lemma PopBooks(s: State, c: Choice)
    requires Books(s) && QueueOf(s, c) != [] && QueueOf(s, c)[0] < |s.counters| && s.AllIssued(QueueOf(s, c)[0])
    ensures Books(PopFrom(s, c))
  {
    var id := QueueOf(s, c)[0];
    PopMoves(s, c);
    MovesAt(s, PopFrom(s, c), id, Moved(-1, 0, 0), id);
    assert BooksOk(s, id);
    BooksMove(s, PopFrom(s, c), id, Moved(-1, 0, 0));
  }

  lemma PopShape(s: State, c: Choice)
    requires Shape(s) && QueueOf(s, c) != []
    ensures Shape(PopFrom(s, c))
  {
  }

  lemma ChosenDir(s: State, c: Choice)
    requires Shape(s) && QueueOf(s, c) != []
    ensures QueueOf(s, c)[0] < |s.counters| && s.counters[QueueOf(s, c)[0]].event.dir == Dram
  {
  }

  lemma IssueDramInv(s: State, room: nat)
    requires Inv(s)
    ensures Inv(IssueDram(s, room))
  {
    var c := Chosen(s);
    if c != FromNone {
      var id := QueueOf(s, c)[0];
      ChosenDir(s, c);
      IssueSomeInv(s, id, room);
      IssueSomeFrame(s, id, room);
      var s1 := IssueSome(s, id, room);
      if s1.AllIssued(id) {
        PopBooks(s1, c);
        PopShape(s1, c);
      }
    }
  }

  lemma EdramMoves(s: State, id: nat)
    requires id < |s.counters|
    ensures Moves(s, IssueOneEdram(s, id), id, Moved(0, 1, 0))
  {
    EntryPush(s.edramPending, Entry(EdramAddr(s, id), id));
    Push(Ids(s.edramPending), id);
  }

  lemma IssueOneEdramBooks(s: State, id: nat)
    requires Books(s) && id < |s.counters| && !s.AllIssued(id)
    ensures Books(IssueOneEdram(s, id))
  {
    EdramMoves(s, id);
    MovesAt(s, IssueOneEdram(s, id), id, Moved(0, 1, 0), id);
    assert BooksOk(s, id);
    BooksMove(s, IssueOneEdram(s, id), id, Moved(0, 1, 0));
  }

  lemma IssueOneEdramShape(s: State, id: nat)
    requires Shape(s) && id < |s.counters| && s.counters[id].event.dir == Edram
    ensures Shape(IssueOneEdram(s, id))
  {
    var a := EdramAddr(s, id);
    EntryPush(s.edramPending, Entry(a, id));
    Push(Addrs(s.edramPending), a);
    Push(s.edramTrans, a);
    EdramDirs(s, id);
    EdramFields(s, id);
    hide IssueOneEdram, Known, DirsOk, Addrs, EdramAddr;
  }

  lemma EdramDirs(s: State, id: nat)
    requires Shape(s) && id < |s.counters| && s.counters[id].event.dir == Edram
    ensures Known(IssueOneEdram(s, id)) && DirsOk(IssueOneEdram(s, id))
  {
    hide AddrsOk, EdramAddr;
  }

  lemma EdramFields(s: State, id: nat)
    requires id < |s.counters|
    ensures var s', a := IssueOneEdram(s, id), EdramAddr(s, id);
            && s'.failed == s.failed && s'.pending == s.pending && s'.busy == s.busy
            && s'.edramPending == s.edramPending + [Entry(a, id)] && s'.edramTrans == s.edramTrans + [a]
  {
    hide EdramAddr;
  }

  lemma {:induction false} IssueSomeEdramInv(s: State, id: nat)
    requires Inv(s) && id < |s.counters| && s.counters[id].event.dir == Edram
    ensures Inv(IssueSomeEdram(s, id))
    decreases TransPerClock - |s.edramTrans|
  {
    if !s.AllIssued(id) && |s.edramTrans| < TransPerClock {
      IssueOneEdramBooks(s, id);
      IssueOneEdramShape(s, id);
      IssueSomeEdramInv(IssueOneEdram(s, id), id);
    }
  }

  lemma PopTmpMoves(s: State)
    requires s.tmps != [] && s.tmps[0] < |s.counters|
    ensures Moves(s, s.(tmps := s.tmps[1..]), s.tmps[0], Moved(-1, 0, 0))
  {
    Pop(s.tmps);
  }

  lemma PopTmpBooks(s: State)
    requires Books(s) && s.tmps != [] && s.tmps[0] < |s.counters| && s.AllIssued(s.tmps[0])
    ensures Books(s.(tmps := s.tmps[1..]))
  {
    PopTmpMoves(s);
    MovesAt(s, s.(tmps := s.tmps[1..]), s.tmps[0], Moved(-1, 0, 0), s.tmps[0]);
    assert BooksOk(s, s.tmps[0]);
    BooksMove(s, s.(tmps := s.tmps[1..]), s.tmps[0], Moved(-1, 0, 0));
  }

  lemma PopTmpShape(s: State)
    requires Shape(s) && s.tmps != []
    ensures Shape(s.(tmps := s.tmps[1..]))
  {
  }

  lemma PopTmpInv(s: State)
    requires Inv(s) && s.tmps != [] && s.tmps[0] < |s.counters| && s.AllIssued(s.tmps[0])
    ensures Inv(s.(tmps := s.tmps[1..]))
  {
    PopTmpBooks(s);
    PopTmpShape(s);
  }

  lemma TmpDir(s: State)
    requires Shape(s) && s.tmps != []
    ensures s.tmps[0] < |s.counters| && s.counters[s.tmps[0]].event.dir == Edram
  {
  }

  lemma {:induction false} IssueEdramInv(s: State)
    requires Inv(s)
    ensures Inv(IssueEdram(s))
    decreases |s.tmps|
  {
    if s.tmps != [] {
      var id := s.tmps[0];
      TmpDir(s);
      IssueSomeEdramInv(s, id);
      var s1 := IssueSomeEdram(s, id);
      if s1.AllIssued(id) {
        PopTmpInv(s1);
        var s2 := s1.(tmps := s1.tmps[1..]);
        if |s2.edramTrans| < TransPerClock {
          IssueEdramInv(s2);
        }
      }
    }
  }

  // ----------------------------------------------------------------- replies

  lemma InFlightHas(p: seq<Entry>, i: nat)
    requires i < |p|
    ensures multiset(Ids(p))[p[i].id] > 0
  {
    assert Ids(p)[i] == p[i].id;
    assert p[i].id in Ids(p);
  }

  lemma FlyingAt(s: State, id: nat)
    requires multiset(Ids(s.pending))[id] > 0 || multiset(Ids(s.edramPending))[id] > 0
    ensures InFlight(s)[id] > 0
  {
  }

  lemma MemMoves(s: State, addr: nat, i: nat)
    requires Known(s) && i < |s.pending| && s.pending[i].addr == addr && s.counters[s.pending[i].id].event.dir == Dram
    ensures var s' := MemCallback(s, addr, i);
            var id := s.pending[i].id;
            Moves(s, s', id, Moved(0, -1, if s'.AllConfirmed(id) then 1 else 0)) && s'.failed == s.failed
  {
    var id := s.pending[i].id;
    EntryDrop(s.pending, i);
    Push(s.dramReturn, id);
  }

  lemma MemBooks(s: State, addr: nat, i: nat)
    requires Inv(s) && i < |s.pending| && s.pending[i].addr == addr
    ensures Books(MemCallback(s, addr, i)) && !MemCallback(s, addr, i).failed
  {
    var id, s' := s.pending[i].id, MemCallback(s, addr, i);
    var m := Moved(0, -1, if s'.AllConfirmed(id) then 1 else 0);
    MemMoves(s, addr, i);
    MovesAt(s, s', id, m, id);
    InFlightHas(s.pending, i);
    FlyingAt(s, id);
    assert BooksOk(s, id);
    BooksMove(s, s', id, m);
  }

  lemma MinusOne(a: multiset<nat>, b: multiset<nat>, x: nat)
    requires a == b + multiset{x}
    ensures b == a - multiset{x}
  {
  }

  lemma MemAddrs(s: State, addr: nat, i: nat)
    requires AddrsOk(s) && i < |s.pending| && s.pending[i].addr == addr
    ensures multiset(Addrs(Remove(s.pending, i))) == s.busy - multiset{addr}
  {
    EntryDrop(s.pending, i);
    MinusOne(multiset(Addrs(s.pending)), multiset(Addrs(Remove(s.pending, i))), addr);
  }

  lemma MemShape(s: State, addr: nat, i: nat)
    requires Shape(s) && i < |s.pending| && s.pending[i].addr == addr && !MemCallback(s, addr, i).failed
    ensures Shape(MemCallback(s, addr, i))
  {
    CallbackKnown(s, addr, i);
    MemAddrs(s, addr, i);
    MemDirs(s, addr, i);
    MemFields(s, addr, i);
    hide MemCallback, Known, DirsOk, Addrs;
  }

  lemma MemDirs(s: State, addr: nat, i: nat)
    requires Known(s) && DirsOk(s) && i < |s.pending| && s.pending[i].addr == addr && Known(MemCallback(s, addr, i))
    ensures DirsOk(MemCallback(s, addr, i))
  {
    var id := s.pending[i].id;
    assert forall k :: 0 <= k < |s.counters| ==> Confirm(s, id).counters[k].event == s.counters[k].event;
    hide AddrsOk;
  }

  lemma MemFields(s: State, addr: nat, i: nat)
    requires Known(s) && i < |s.pending| && s.pending[i].addr == addr
    ensures var s' := MemCallback(s, addr, i);
            && s'.pending == Remove(s.pending, i) && s'.busy == s.busy - multiset{addr}
            && s'.edramPending == s.edramPending && s'.edramTrans == s.edramTrans
  {
  }

  lemma BufMoves(s: State, i: nat)
    requires Known(s) && s.edramTrans != [] && i < |s.edramPending| && s.edramPending[i].addr == s.edramTrans[0]
    requires s.counters[s.edramPending[i].id].event.dir == Edram
    ensures var s' := BufCallback(s, i);
            var id := s.edramPending[i].id;
            Moves(s, s', id, Moved(0, -1, if s'.AllConfirmed(id) then 1 else 0)) && s'.failed == s.failed
  {
    var id := s.edramPending[i].id;
    EntryDrop(s.edramPending, i);
    Push(s.edramReturn, id);
  }

  lemma BufBooks(s: State, i: nat)
    requires Inv(s) && s.edramTrans != [] && i < |s.edramPending| && s.edramPending[i].addr == s.edramTrans[0]
    ensures Books(BufCallback(s, i)) && !BufCallback(s, i).failed
  {
    var id, s' := s.edramPending[i].id, BufCallback(s, i);
    var m := Moved(0, -1, if s'.AllConfirmed(id) then 1 else 0);
    BufMoves(s, i);
    MovesAt(s, s', id, m, id);
    InFlightHas(s.edramPending, i);
    FlyingAt(s, id);
    assert BooksOk(s, id);
    BooksMove(s, s', id, m);
  }

  lemma SameAfterPop(a: multiset<nat>, b: multiset<nat>, a': multiset<nat>, b': multiset<nat>, x: nat)
    requires a == b && a == a' + multiset{x} && b == b' + multiset{x}
    ensures a' == b'
  {
    MinusOne(a, a', x);
    MinusOne(b, b', x);
  }

  lemma BufAddrs(s: State, i: nat)
    requires AddrsOk(s) && s.edramTrans != [] && i < |s.edramPending| && s.edramPending[i].addr == s.edramTrans[0]
    ensures multiset(Addrs(Remove(s.edramPending, i))) == multiset(s.edramTrans[1..])
  {
    EntryDrop(s.edramPending, i);
    Pop(s.edramTrans);
    SameAfterPop(multiset(Addrs(s.edramPending)), multiset(s.edramTrans), multiset(Addrs(Remove(s.edramPending, i))),
                 multiset(s.edramTrans[1..]), s.edramTrans[0]);
  }

  lemma BufShape(s: State, i: nat)
    requires Shape(s) && s.edramTrans != [] && i < |s.edramPending| && s.edramPending[i].addr == s.edramTrans[0]
    requires !BufCallback(s, i).failed
    ensures Shape(BufCallback(s, i))
  {
    CallbackKnown(s, 0, i);
    BufAddrs(s, i);
  }

  // The address that a reply carries is always found.
  lemma AddrFound(p: seq<Entry>, addr: nat)
    requires addr in multiset(Addrs(p))
    ensures Finds(p, addr)
  {
    var i :| 0 <= i < |Addrs(p)| && Addrs(p)[i] == addr;
    assert p[i].addr == addr;
  }

  lemma FirstToLast(a: seq<nat>, b: seq<nat>, c: seq<nat>)
    requires a != []
    ensures multiset(a[1..]) + multiset(b) + multiset(c + [a[0]]) == multiset(a) + multiset(b) + multiset(c)
  {
    Pop(a);
    Push(c, a[0]);
  }

  lemma SecondToLast(a: seq<nat>, b: seq<nat>, c: seq<nat>)
    requires b != []
    ensures multiset(a) + multiset(b[1..]) + multiset(c + [b[0]]) == multiset(a) + multiset(b) + multiset(c)
  {
    Pop(b);
    Push(c, b[0]);
  }

  lemma HandleBags(s: State)
    requires Known(s) && !s.failed
    ensures var s' := Step(s, OpHandle);
            && Queued(s') == Queued(s) && InFlight(s') == InFlight(s) && Delivered(s') == Delivered(s) && s'.counters == s.counters
            && s'.block == s.block
  {
    if s.dramReturn != [] {
      FirstToLast(s.dramReturn, s.edramReturn, s.handled);
    } else if s.edramReturn != [] {
      SecondToLast(s.dramReturn, s.edramReturn, s.handled);
    }
  }

  lemma HandleShape(s: State)
    requires Shape(s)
    ensures Shape(Step(s, OpHandle))
  {
  }

  lemma SameBooks(s: State, s': State)
    requires Books(s) && s'.block == s.block && s'.counters == s.counters
    requires Queued(s') == Queued(s) && InFlight(s') == InFlight(s) && Delivered(s') == Delivered(s)
    ensures Books(s')
  {
    forall k: nat | k < |s'.counters|
      ensures BooksOk(s', k)
    {
      assert BooksOk(s, k);
    }
  }

  // ------------------------------------------------------------------- all steps

  lemma DramReplyInv(s: State, addr: nat, pick: nat)
    requires Inv(s)
    ensures Inv(Step(s, OpDramReply(addr, pick)))
  {
    if addr in s.busy {
      AddrFound(s.pending, addr);
      if pick < |s.pending| && s.pending[pick].addr == addr {
        MemBooks(s, addr, pick);
        MemShape(s, addr, pick);
      }
    }
  }

  lemma FrontIn(q: seq<nat>)
    requires q != []
    ensures q[0] in multiset(q)
  {
  }

  lemma EdramReplyInv(s: State, pick: nat)
    requires Inv(s)
    ensures Inv(Step(s, OpEdramReply(pick)))
  {
    if s.edramTrans != [] {
      FrontIn(s.edramTrans);
      AddrFound(s.edramPending, s.edramTrans[0]);
      if pick < |s.edramPending| && s.edramPending[pick].addr == s.edramTrans[0] {
        BufBooks(s, pick);
        BufShape(s, pick);
      }
    }
  }

  lemma StepInv(s: State, op: Op)
    requires Inv(s) && (op.OpAdd? ==> op.event.Routable())
    ensures Inv(Step(s, op))
  {
    match op {
      case OpAdd(event) =>
        AddBooks(s, event);
        AddShape(s, event);
      case OpIssue(room) =>
        IssueDramInv(s, room);
        IssueDramKnown(s, room);
        IssueEdramInv(IssueDram(s, room));
      case OpDramReply(addr, pick) => DramReplyInv(s, addr, pick);
      case OpEdramReply(pick) => EdramReplyInv(s, pick);
      case OpHandle =>
        HandleBags(s);
        HandleShape(s);
        SameBooks(s, Step(s, op));
    }
  }

  predicate AllRoutable(ops: seq<Op>) {
    forall i :: 0 <= i < |ops| && ops[i].OpAdd? ==> ops[i].event.Routable()
  }

  lemma {:induction false} RunInv(block: nat, capacity: nat, ops: seq<Op>)
    requires 0 < block && AllRoutable(ops)
    ensures Inv(Run(Init(block, capacity), ops))
  {
    if ops != [] {
      RunInv(block, capacity, ops[..|ops| - 1]);
      StepInv(Run(Init(block, capacity), ops[..|ops| - 1]), ops[|ops| - 1]);
    }
  }

  // ------------------------------------------------------------- the theorems

  // On every run: what an event has issued and not confirmed is exactly its
  // entries in flight, and it is delivered once, precisely when all of its
  // transactions are confirmed. No lookup fails and no event is misrouted.
  lemma DeliveredOnce(block: nat, capacity: nat, ops: seq<Op>, id: nat)
    requires 0 < block && AllRoutable(ops) && id < |Run(Init(block, capacity), ops).counters|
    ensures var s := Run(Init(block, capacity), ops);
            && !s.failed && s.block == block
            && s.counters[id].confirm <= s.counters[id].trans <= s.counters[id].event.NumTrans(block)
            && InFlight(s)[id] == s.counters[id].trans - s.counters[id].confirm
            && Delivered(s)[id] <= 1
            && (s.counters[id].event.bytes > 0 ==>
                  (Delivered(s)[id] == 1 <==> s.counters[id].confirm == s.counters[id].event.NumTrans(block)))
  {
    RunInv(block, capacity, ops);
    RunBlock(block, capacity, ops);
    var s := Run(Init(block, capacity), ops);
    assert BooksOk(s, id);
    SomeTrans(s.counters[id].event, block);
  }

  lemma SomeTrans(e: Event, block: nat)
    requires 0 < block
    ensures e.NumTrans(block) > 0 <==> e.bytes > 0
  {
    QuotientPositive(e.bytes + block - 1, block);
  }

  lemma {:induction false} RunBlock(block: nat, capacity: nat, ops: seq<Op>)
    requires 0 < block
    ensures Run(Init(block, capacity), ops).block == block
  {
    if ops != [] {
      RunBlock(block, capacity, ops[..|ops| - 1]);
      StepBlock(Run(Init(block, capacity), ops[..|ops| - 1]), ops[|ops| - 1]);
    }
  }

  lemma {:induction false} EdramBlock(s: State)
    requires Known(s)
    ensures IssueEdram(s).block == s.block
    decreases |s.tmps|
  {
    if s.tmps != [] {
      var s1 := IssueSomeEdram(s, s.tmps[0]);
      IssueSomeEdramKnown(s, s.tmps[0]);
      if s1.AllIssued(s.tmps[0]) && |s1.edramTrans| < TransPerClock {
        EdramBlock(s1.(tmps := s1.tmps[1..]));
      }
    }
  }

  lemma StepBlock(s: State, op: Op)
    requires Known(s)
    ensures Step(s, op).block == s.block
  {
    if op.OpIssue? {
      IssueDramKnown(s, op.room);
      var c := Chosen(s);
      if c != FromNone {
        IssueSomeKnown(s, QueueOf(s, c)[0], op.room);
      }
      assert Known(IssueDram(s, op.room));
      EdramBlock(IssueDram(s, op.room));
    }
  }

  // Once nothing is queued and nothing is in flight, every event that asked for
  // any bytes has been delivered, and an event of zero bytes never is.
  lemma NothingForgotten(block: nat, capacity: nat, ops: seq<Op>, id: nat)
    requires 0 < block && AllRoutable(ops) && id < |Run(Init(block, capacity), ops).counters|
    requires var s := Run(Init(block, capacity), ops); Queued(s)[id] == 0 && InFlight(s)[id] == 0
    ensures var s := Run(Init(block, capacity), ops);
            Delivered(s)[id] == if s.counters[id].event.bytes > 0 then 1 else 0
  {
    RunInv(block, capacity, ops);
    RunBlock(block, capacity, ops);
    var s := Run(Init(block, capacity), ops);
    assert BooksOk(s, id);
    SomeTrans(s.counters[id].event, block);
  }
}
