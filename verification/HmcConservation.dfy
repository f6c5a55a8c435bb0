// The crossbar loses and duplicates nothing: every inserted request is in one
// stage and has one response, queues stay within their depth, and a positive age
// always means a non-empty queue.
module HmcConservation {
  import opened Basics
  import opened HmcSpec

  // ------------------------------------------------------------------ bags

  // What a projection sees in a queue, and in all queues of a stage.
  function Bag<T>(q: seq<T>, f: T -> nat): multiset<nat> {
    if q == [] then multiset{} else Bag(q[..|q| - 1], f) + multiset{f(q[|q| - 1])}
  }

  function BagAll<T>(qs: seq<seq<T>>, f: T -> nat): multiset<nat> {
    if qs == [] then multiset{} else BagAll(qs[..|qs| - 1], f) + Bag(qs[|qs| - 1], f)
  }

  function ReqId(r: Req): nat { r.id }
  function ReqAddr(r: Req): nat { r.addr }
  function RespId(r: Resp): nat { r.id }
  function RespAddr(r: Resp): nat { r.addr }

  lemma BagPush<T>(q: seq<T>, x: T, f: T -> nat)
    ensures Bag(q + [x], f) == Bag(q, f) + multiset{f(x)}
  {
    assert (q + [x])[..|q|] == q;
  }

  lemma Swap(a: multiset<nat>, b: multiset<nat>, c: multiset<nat>)
    ensures (a + b) + c == (a + c) + b
  {
  }

  lemma BagUnfold<T>(q: seq<T>, f: T -> nat)
    requires q != []
    ensures Bag(q, f) == Bag(q[..|q| - 1], f) + multiset{f(q[|q| - 1])}
  {
  }

  lemma {:induction false} BagDrop<T>(q: seq<T>, i: nat, f: T -> nat)
    requires i < |q|
    ensures Bag(q, f) == Bag(Remove(q, i), f) + multiset{f(q[i])}
  {
    hide *;
    var n := |q| - 1;
    BagUnfold(q, f);
    if i < n {
      BagDrop(q[..n], i, f);
      RemoveBeforeLast(q, i);
      BagPush(Remove(q[..n], i), q[n], f);
      Swap(Bag(Remove(q[..n], i), f), multiset{f(q[i])}, multiset{f(q[n])});
    } else {
      RemoveLast(q);
    }
  }

  lemma BagPop<T>(q: seq<T>, f: T -> nat)
    requires q != []
    ensures Bag(q, f) == Bag(q[1..], f) + multiset{f(q[0])}
  {
    BagDrop(q, 0, f);
    assert Remove(q, 0) == q[1..];
  }

  lemma BagAllUnfold<T>(qs: seq<seq<T>>, f: T -> nat)
    requires qs != []
    ensures BagAll(qs, f) == BagAll(qs[..|qs| - 1], f) + Bag(qs[|qs| - 1], f)
  {
  }

  // One queue of a stage changes.
  lemma {:induction false} BagAllSet<T>(qs: seq<seq<T>>, i: nat, q: seq<T>, f: T -> nat)
    requires i < |qs|
    ensures BagAll(qs[i := q], f) + Bag(qs[i], f) == BagAll(qs, f) + Bag(q, f)
  {
    hide *;
    var n := |qs| - 1;
    BagAllUnfold(qs, f);
    BagAllUnfold(qs[i := q], f);
    if i < n {
      assert qs[i := q][..n] == qs[..n][i := q];
      BagAllSet(qs[..n], i, q, f);
      Swap(BagAll(qs[..n][i := q], f), Bag(qs[n], f), Bag(qs[i], f));
      Swap(BagAll(qs[..n], f), Bag(qs[n], f), Bag(q, f));
    } else {
      assert qs[i := q][..n] == qs[..n];
      Swap(BagAll(qs[..n], f), Bag(q, f), Bag(qs[n], f));
    }
  }

  lemma CancelPush(all: multiset<nat>, all': multiset<nat>, b: multiset<nat>, b': multiset<nat>, x: multiset<nat>)
    requires all' + b == all + b' && b' == b + x
    ensures all' == all + x
  {
    forall k
      ensures all'[k] == (all + x)[k]
    {
      assert (all' + b)[k] == (all + b')[k];
    }
  }

  lemma CancelPop(all: multiset<nat>, all': multiset<nat>, b: multiset<nat>, b': multiset<nat>, x: multiset<nat>)
    requires all' + b == all + b' && b == b' + x
    ensures all == all' + x
  {
    forall k
      ensures all[k] == (all' + x)[k]
    {
      assert (all' + b)[k] == (all + b')[k];
    }
  }

  lemma BagAllPush<T>(qs: seq<seq<T>>, i: nat, x: T, f: T -> nat)
    requires i < |qs|
    ensures BagAll(qs[i := qs[i] + [x]], f) == BagAll(qs, f) + multiset{f(x)}
  {
    hide *;
    BagAllSet(qs, i, qs[i] + [x], f);
    BagPush(qs[i], x, f);
    CancelPush(BagAll(qs, f), BagAll(qs[i := qs[i] + [x]], f), Bag(qs[i], f), Bag(qs[i] + [x], f), multiset{f(x)});
  }

  lemma BagAllPop<T>(qs: seq<seq<T>>, i: nat, f: T -> nat)
    requires i < |qs| && qs[i] != []
    ensures BagAll(qs, f) == BagAll(qs[i := qs[i][1..]], f) + multiset{f(qs[i][0])}
  {
    hide *;
    BagAllSet(qs, i, qs[i][1..], f);
    BagPop(qs[i], f);
    CancelPop(BagAll(qs, f), BagAll(qs[i := qs[i][1..]], f), Bag(qs[i], f), Bag(qs[i][1..], f), multiset{f(qs[i][0])});
  }

  // ------------------------------------------------------------- the books

  // The requests still on their way, by id and by address, and the responses.
  function Requests(s: State): multiset<nat> { BagAll(s.linkReq, ReqId) + BagAll(s.quadReq, ReqId) + Bag(s.vault, ReqId) }

  function Asked(s: State): multiset<nat> { BagAll(s.linkReq, ReqAddr) + BagAll(s.quadReq, ReqAddr) + Bag(s.vault, ReqAddr) }

  function Responses(s: State): multiset<nat> {
    Bag(s.lookup, RespId) + BagAll(s.quadResp, RespId) + BagAll(s.linkResp, RespId) + Bag(s.delivered, RespId)
  }

  // Each inserted request's response is in exactly one place; no request is twice
  // on its way; and for every address as many responses wait as requests are on
  // their way.
  ghost predicate Conserved(s: State) {
    && (forall id: nat :: Responses(s)[id] == if id < s.inserted then 1 else 0)
    && (forall id: nat :: Requests(s)[id] <= if id < s.inserted then 1 else 0)
    && Asked(s) == Bag(s.lookup, RespAddr)
  }

  predicate AgesMatch<T>(age: seq<nat>, qs: seq<seq<T>>) {
    |age| == |qs| && forall i :: 0 <= i < |qs| ==> (age[i] > 0 <==> qs[i] != [])
  }

  predicate WithinDepth<T>(qs: seq<seq<T>>, depth: nat) { forall i :: 0 <= i < |qs| ==> |qs[i]| <= depth }

  predicate Routed(s: State) {
    && (forall i, j :: 0 <= i < |s.linkReq| && 0 <= j < |s.linkReq[i]| ==> s.linkReq[i][j].quad < Quads)
    && (forall j :: 0 <= j < |s.lookup| ==> s.lookup[j].quad < Quads && s.lookup[j].link < s.Links())
    && (forall i, j :: 0 <= i < |s.quadResp| && 0 <= j < |s.quadResp[i]| ==> s.quadResp[i][j].link < s.Links())
    && (forall i, j :: 0 <= i < |s.linkResp| && 0 <= j < |s.linkResp[i]| ==> s.linkResp[i][j].link == i)
  }

  predicate Orderly(s: State) {
    && s.Shaped() && !s.failed
    && AgesMatch(s.linkAge, s.linkReq) && AgesMatch(s.quadAge, s.quadResp)
    && WithinDepth(s.linkReq, s.depth) && WithinDepth(s.quadReq, s.depth) && WithinDepth(s.linkResp, s.depth)
    && Routed(s)
  }

  ghost predicate Inv(s: State) { Orderly(s) && Conserved(s) }

  ghost predicate SameBooks(s: State, s': State) {
    && s'.inserted == s.inserted && Responses(s') == Responses(s) && Requests(s') == Requests(s)
    && Asked(s') == Asked(s) && Bag(s'.lookup, RespAddr) == Bag(s.lookup, RespAddr)
  }

  lemma BooksStay(s: State, s': State)
    requires Conserved(s) && SameBooks(s, s')
    ensures Conserved(s')
  {
  }

  // ----------------------------------------------------------------- inserting

  function Three(a: multiset<nat>, b: multiset<nat>, c: multiset<nat>): multiset<nat> { a + b + c }

  function Four(a: multiset<nat>, b: multiset<nat>, c: multiset<nat>, d: multiset<nat>): multiset<nat> { a + b + c + d }

  lemma ThreeMore(a: multiset<nat>, b: multiset<nat>, c: multiset<nat>, x: multiset<nat>)
    ensures Three(a + x, b, c) == Three(a, b, c) + x
    ensures Three(a, b + x, c) == Three(a, b, c) + x
    ensures Three(a, b, c + x) == Three(a, b, c) + x
  {
  }

  lemma FourMore(a: multiset<nat>, b: multiset<nat>, c: multiset<nat>, d: multiset<nat>, x: multiset<nat>)
    ensures Four(a + x, b, c, d) == Four(a, b, c, d) + x
    ensures Four(a, b + x, c, d) == Four(a, b, c, d) + x
    ensures Four(a, b, c + x, d) == Four(a, b, c, d) + x
    ensures Four(a, b, c, d + x) == Four(a, b, c, d) + x
  {
  }

  lemma InsertBags(s: State, req: Req, l: nat)
    requires s.Shaped() && l < s.Links()
    ensures var s' := InsertReqToLink(s, req, l);
            && Requests(s') == Requests(s) + multiset{req.id} && Asked(s') == Asked(s) + multiset{req.addr}
            && Responses(s') == Responses(s) + multiset{req.id} && Bag(s'.lookup, RespAddr) == Bag(s.lookup, RespAddr) + multiset{req.addr}
  {
    InsertIs(s, req, l);
    StagesOf(s);
    StagesOf(InsertReqToLink(s, req, l));
    hide *;
    BagAllPush(s.linkReq, l, req, ReqId);
    BagAllPush(s.linkReq, l, req, ReqAddr);
    BagPush(s.lookup, RespFor(req, l), RespId);
    BagPush(s.lookup, RespFor(req, l), RespAddr);
    ThreeMore(BagAll(s.linkReq, ReqId), BagAll(s.quadReq, ReqId), Bag(s.vault, ReqId), multiset{req.id});
    ThreeMore(BagAll(s.linkReq, ReqAddr), BagAll(s.quadReq, ReqAddr), Bag(s.vault, ReqAddr), multiset{req.addr});
    FourMore(Bag(s.lookup, RespId), BagAll(s.quadResp, RespId), BagAll(s.linkResp, RespId), Bag(s.delivered, RespId), multiset{req.id});
  }

  lemma StagesOf(s: State)
    ensures Requests(s) == Three(BagAll(s.linkReq, ReqId), BagAll(s.quadReq, ReqId), Bag(s.vault, ReqId))
    ensures Asked(s) == Three(BagAll(s.linkReq, ReqAddr), BagAll(s.quadReq, ReqAddr), Bag(s.vault, ReqAddr))
    ensures Responses(s) ==
              Four(Bag(s.lookup, RespId), BagAll(s.quadResp, RespId), BagAll(s.linkResp, RespId), Bag(s.delivered, RespId))
  {
  }

  lemma InsertIs(s: State, req: Req, l: nat)
    requires s.Shaped() && l < s.Links()
    ensures var s' := InsertReqToLink(s, req, l);
            && s'.linkReq == s.linkReq[l := s.linkReq[l] + [req]] && s'.lookup == s.lookup + [RespFor(req, l)]
            && s'.quadReq == s.quadReq && s'.vault == s.vault && s'.quadResp == s.quadResp && s'.linkResp == s.linkResp
            && s'.delivered == s.delivered && ReqId(req) == req.id && ReqAddr(req) == req.addr
            && RespId(RespFor(req, l)) == req.id && RespAddr(RespFor(req, l)) == req.addr
  {
  }

  lemma OneMore(a: multiset<nat>, b: multiset<nat>, x: nat, k: nat)
    requires b == a + multiset{x}
    ensures b[k] == a[k] + if k == x then 1 else 0
  {
  }

  lemma InsertConserved(s: State, req: Req, l: nat)
    requires s.Shaped() && l < s.Links() && req.id == s.inserted && Conserved(s)
    ensures Conserved(InsertReqToLink(s, req, l))
  {
    var s' := InsertReqToLink(s, req, l);
    InsertBags(s, req, l);
    forall id: nat
      ensures Responses(s')[id] == (if id < s'.inserted then 1 else 0) && Requests(s')[id] <= (if id < s'.inserted then 1 else 0)
    {
      OneMore(Responses(s), Responses(s'), req.id, id);
      OneMore(Requests(s), Requests(s'), req.id, id);
    }
  }

  lemma InsertOrderly(s: State, req: Req, l: nat)
    requires Orderly(s) && l < s.Links() && |s.linkReq[l]| < s.depth && req.quad < Quads
    ensures Orderly(InsertReqToLink(s, req, l))
  {
  }

  lemma NextInv(s: State)
    requires s.Shaped()
    ensures Inv(s) ==> Inv(IterateNextLink(s))
  {
    if Inv(s) {
      assert SameBooks(s, IterateNextLink(s));
    }
  }

  // A link with room, if there is one, takes the request.
  predicate HasRoom(s: State) { exists l :: 0 <= l < |s.linkReq| && |s.linkReq[l]| < s.depth }

  lemma {:induction false} TryInv(s: State, req: Req, n: nat)
    requires Inv(s) && req.id == s.inserted && req.quad < Quads
    ensures Inv(TryLinks(s, req, n).0)
    ensures TryLinks(s, req, n).0.inserted == s.inserted + if TryLinks(s, req, n).1 then 1 else 0
    decreases n
  {
    if n > 0 {
      if |s.linkReq[s.nextLink]| < s.depth {
        InsertConserved(s, req, s.nextLink);
        InsertOrderly(s, req, s.nextLink);
        NextInv(InsertReqToLink(s, req, s.nextLink));
      } else {
        NextInv(s);
        TryInv(IterateNextLink(s), req, n - 1);
      }
    }
  }

  // ---------------------------------------------------------------- moving on

  // An item leaves the front of one stage's queue and joins another stage.
  lemma ThreeMove(a: multiset<nat>, a': multiset<nat>, b: multiset<nat>, b': multiset<nat>, c: multiset<nat>, x: multiset<nat>)
    requires a == a' + x && b' == b + x
    ensures Three(a', b', c) == Three(a, b, c) && Three(c, a', b') == Three(c, a, b)
  {
  }

  lemma FourMove(a: multiset<nat>, a': multiset<nat>, b: multiset<nat>, b': multiset<nat>, c: multiset<nat>, d: multiset<nat>,
                 x: multiset<nat>)
    requires a == a' + x && b' == b + x
    ensures Four(a', b', c, d) == Four(a, b, c, d)
    ensures Four(c, a', b', d) == Four(c, a, b, d)
    ensures Four(c, d, a', b') == Four(c, d, a, b)
  {
  }

  lemma VaultMoveBooks(s: State, i: nat)
    requires s.Shaped() && i < Quads && s.quadReq[i] != []
    ensures SameBooks(s, s.(vault := s.vault + [s.quadReq[i][0]], quadReq := s.quadReq[i := s.quadReq[i][1..]]))
  {
    var x := s.quadReq[i][0];
    var s' := s.(vault := s.vault + [x], quadReq := s.quadReq[i := s.quadReq[i][1..]]);
    StagesOf(s);
    StagesOf(s');
    BagAllPop(s.quadReq, i, ReqId);
    BagAllPop(s.quadReq, i, ReqAddr);
    BagPush(s.vault, x, ReqId);
    BagPush(s.vault, x, ReqAddr);
    ThreeMove(BagAll(s.quadReq, ReqId), BagAll(s'.quadReq, ReqId), Bag(s.vault, ReqId), Bag(s'.vault, ReqId),
              BagAll(s.linkReq, ReqId), multiset{ReqId(x)});
    ThreeMove(BagAll(s.quadReq, ReqAddr), BagAll(s'.quadReq, ReqAddr), Bag(s.vault, ReqAddr), Bag(s'.vault, ReqAddr),
              BagAll(s.linkReq, ReqAddr), multiset{ReqAddr(x)});
  }

  lemma VaultMoveOrderly(s: State, i: nat)
    requires Orderly(s) && i < Quads && s.quadReq[i] != []
    ensures Orderly(s.(vault := s.vault + [s.quadReq[i][0]], quadReq := s.quadReq[i := s.quadReq[i][1..]]))
  {
  }

  lemma ToVaultInv(s: State, i: nat, accept: bool)
    requires Inv(s) && i < Quads
    ensures Inv(ToVault(s, i, accept))
  {
    hide Conserved, SameBooks, Orderly;
    InvHas(s);
    if s.quadReq[i] != [] {
      VaultMoveBooks(s, i);
      VaultMoveOrderly(s, i);
      BooksStay(s, s.(vault := s.vault + [s.quadReq[i][0]], quadReq := s.quadReq[i := s.quadReq[i][1..]]));
    }
  }

  lemma InvHas(s: State)
    requires Inv(s)
    ensures s.Shaped() && !s.failed && Orderly(s) && Conserved(s)
  {
  }

  lemma {:induction false} ToVaultsInv(s: State, n: nat, accept: seq<bool>)
    requires Inv(s) && n <= Quads == |accept|
    ensures Inv(ToVaults(s, n, accept))
  {
    if n > 0 {
      ToVaultsInv(s, n - 1, accept);
      ToVaultInv(ToVaults(s, n - 1, accept), n - 1, accept[n - 1]);
    }
  }

  // ---------------------------------------------------------- link to quad

  // Whether the request at the front of a link can cross.
  predicate CanCross(s: State, l: nat)
    requires s.Shaped() && l < s.Links() && s.linkReq[l] != [] && s.linkReq[l][0].quad < Quads
  {
    var q := s.linkReq[l][0].quad;
    |s.quadReq[q]| < s.depth && s.quadBusy[q] <= 0
  }

  lemma QuadMoveBooks(s: State, s': State, l: nat, q: nat, x: Req)
    requires s.Shaped() && l < s.Links() && q < Quads && s.linkReq[l] != []
    requires s'.linkReq == s.linkReq[l := s.linkReq[l][1..]] && s'.quadReq == s.quadReq[q := s.quadReq[q] + [x]]
    requires x.id == s.linkReq[l][0].id && x.addr == s.linkReq[l][0].addr
    requires s'.vault == s.vault && s'.lookup == s.lookup && s'.quadResp == s.quadResp && s'.linkResp == s.linkResp
    requires s'.delivered == s.delivered && s'.inserted == s.inserted
    ensures SameBooks(s, s')
  {
    StagesOf(s);
    StagesOf(s');
    BagAllPop(s.linkReq, l, ReqId);
    BagAllPop(s.linkReq, l, ReqAddr);
    BagAllPush(s.quadReq, q, x, ReqId);
    BagAllPush(s.quadReq, q, x, ReqAddr);
    ThreeMove(BagAll(s.linkReq, ReqId), BagAll(s'.linkReq, ReqId), BagAll(s.quadReq, ReqId), BagAll(s'.quadReq, ReqId),
              Bag(s.vault, ReqId), multiset{ReqId(x)});
    ThreeMove(BagAll(s.linkReq, ReqAddr), BagAll(s'.linkReq, ReqAddr), BagAll(s.quadReq, ReqAddr), BagAll(s'.quadReq, ReqAddr),
              Bag(s.vault, ReqAddr), multiset{ReqAddr(x)});
  }

  lemma FrontRouted(s: State, l: nat)
    requires Orderly(s) && l < s.Links() && s.linkReq[l] != []
    ensures s.linkReq[l][0].quad < Quads
  {
  }

  lemma ToQuadCrosses(s: State, l: nat) returns (x: Req)
    requires Orderly(s) && l < s.Links() && s.linkReq[l] != [] && s.linkReq[l][0].quad < Quads && CanCross(s, l)
    ensures x.id == s.linkReq[l][0].id && x.addr == s.linkReq[l][0].addr
    ensures var s' := ToQuad(s, l);
            var q := s.linkReq[l][0].quad;
            && Orderly(s')
            && s'.linkReq == s.linkReq[l := s.linkReq[l][1..]] && s'.quadReq == s.quadReq[q := s.quadReq[q] + [x]]
            && s'.vault == s.vault && s'.lookup == s.lookup && s'.quadResp == s.quadResp && s'.linkResp == s.linkResp
            && s'.delivered == s.delivered && s'.inserted == s.inserted
  {
    x := s.linkReq[l][0].(exit := s.logicClk + s.linkReq[l][0].flits);
  }

  lemma ToQuadWaits(s: State, l: nat)
    requires Inv(s) && l < s.Links() && s.linkReq[l] != [] && s.linkReq[l][0].quad < Quads && !CanCross(s, l)
    ensures Inv(ToQuad(s, l))
  {
    assert SameBooks(s, ToQuad(s, l));
  }

  lemma ToQuadInv(s: State, l: nat)
    requires Inv(s) && l < s.Links() && s.linkReq[l] != []
    ensures Inv(ToQuad(s, l))
  {
    FrontRouted(s, l);
    if CanCross(s, l) {
      var x := ToQuadCrosses(s, l);
      QuadMoveBooks(s, ToQuad(s, l), l, s.linkReq[l][0].quad, x);
      BooksStay(s, ToQuad(s, l));
    } else {
      ToQuadWaits(s, l);
    }
  }

  // --------------------------------------------------- the arbitration order

  predicate Distinct(q: seq<nat>) { forall i, j :: 0 <= i < j < |q| ==> q[i] != q[j] }

  lemma SplitAt<T>(q: seq<T>, i: nat)
    requires i <= |q|
    ensures forall x :: x in q <==> x in q[..i] || x in q[i..]
  {
    assert q == q[..i] + q[i..];
  }

  lemma InsertAgeIn(q: seq<nat>, pos: nat, age: nat, x: nat)
    ensures x in InsertAge(q, pos, age) <==> x == pos || x in q
  {
    SplitAt(q, InsertAt(q, age));
  }

  lemma InsertAgeAt(q: seq<nat>, pos: nat, age: nat, k: nat)
    requires k <= |q|
    ensures |InsertAge(q, pos, age)| == |q| + 1
    ensures var i := InsertAt(q, age);
            InsertAge(q, pos, age)[k] == if k < i then q[k] else if k == i then pos else q[k - 1]
  {
  }

  lemma InsertAgeDistinct(q: seq<nat>, pos: nat, age: nat)
    requires Distinct(q) && pos !in q
    ensures Distinct(InsertAge(q, pos, age))
  {
    hide InsertAge;
    var r := InsertAge(q, pos, age);
    InsertAgeAt(q, pos, age, 0);
    forall i, j | 0 <= i < j < |r|
      ensures r[i] != r[j]
    {
      InsertAgeAt(q, pos, age, i);
      InsertAgeAt(q, pos, age, j);
    }
  }

  // Which positions have been looked at after n steps.
  predicate Visited(size: nat, start: nat, n: nat, p: nat)
    requires 0 < size
  {
    exists k :: 0 <= k < n && p == Turn(size, start, k)
  }

  function Turn(size: nat, start: nat, k: nat): (p: nat)
    requires 0 < size
    ensures p < size
  {
    (k + start) % size
  }

  lemma TurnOnce(size: nat, start: nat, j: nat, k: nat)
    requires start < size && j < k < size
    ensures Turn(size, start, j) != Turn(size, start, k)
  {
    TurnIs(size, start, j);
    TurnIs(size, start, k);
  }

  lemma TurnIs(size: nat, start: nat, k: nat)
    requires start < size && k < size
    ensures Turn(size, start, k) == if k + start < size then k + start else k + start - size
  {
    if k + start >= size {
      assert k + start == 1 * size + (k + start - size);
    }
  }

  lemma VisitedNext(size: nat, start: nat, n: nat, p: nat)
    requires 0 < size && 0 < n
    ensures Visited(size, start, n, p) <==> Visited(size, start, n - 1, p) || p == Turn(size, start, n - 1)
  {
  }

  lemma NotYetVisited(size: nat, start: nat, n: nat)
    requires start < size && n < size
    ensures !Visited(size, start, n, Turn(size, start, n))
  {
    forall k: nat | k < n
      ensures Turn(size, start, k) != Turn(size, start, n)
    {
      TurnOnce(size, start, k, n);
    }
  }

  predicate Due(age: seq<nat>, start: nat, n: nat, p: nat) {
    p < |age| && age[p] > 0 && Visited(|age|, start, n, p)
  }

  lemma AgeQueueStep(age: seq<nat>, start: nat, n: nat)
    requires 0 < n <= |age|
    ensures var q, pos := AgeQueue(age, start, n - 1), Turn(|age|, start, n - 1);
            AgeQueue(age, start, n) == if age[pos] > 0 then InsertAge(q, pos, age[pos]) else q
  {
  }

  lemma DueNext(age: seq<nat>, start: nat, n: nat, p: nat)
    requires 0 < n <= |age|
    ensures var pos := Turn(|age|, start, n - 1);
            Due(age, start, n, p) <==> Due(age, start, n - 1, p) || (p == pos && age[pos] > 0)
  {
    VisitedNext(|age|, start, n, p);
  }

  lemma NotYetDue(age: seq<nat>, start: nat, n: nat)
    requires start < |age| && n < |age|
    ensures !Due(age, start, n, Turn(|age|, start, n))
  {
    NotYetVisited(|age|, start, n);
  }

  lemma NothingDue(age: seq<nat>, start: nat)
    ensures Distinct(AgeQueue(age, start, 0)) && forall p: nat :: p !in AgeQueue(age, start, 0) && !Due(age, start, 0, p)
  {
  }

  // The order lists the positions with a positive age among those looked at, once each.
  lemma {:induction false} AgeQueueIs(age: seq<nat>, start: nat, n: nat)
    requires 0 < |age| && start < |age| && n <= |age|
    ensures Distinct(AgeQueue(age, start, n))
    ensures forall p: nat :: p in AgeQueue(age, start, n) <==> Due(age, start, n, p)
  {
    hide *;
    if n == 0 {
      NothingDue(age, start);
    } else {
      AgeQueueIs(age, start, n - 1);
      AgeQueueStep(age, start, n);
      var q, pos := AgeQueue(age, start, n - 1), Turn(|age|, start, n - 1);
      NotYetDue(age, start, n - 1);
      if age[pos] > 0 {
        InsertAgeDistinct(q, pos, age[pos]);
      }
      forall p: nat
        ensures p in AgeQueue(age, start, n) <==> Due(age, start, n, p)
      {
        DueNext(age, start, n, p);
        InsertAgeIn(q, pos, age[pos], p);
      }
    }
  }

  lemma AllVisited(size: nat, start: nat, p: nat)
    requires start < size && p < size
    ensures Visited(size, start, size, p)
  {
    var k := if p >= start then p - start else p + size - start;
    TurnIs(size, start, k);
  }

  lemma BuildAgeQueueIs(age: seq<nat>, clk: nat)
    requires 0 < |age|
    ensures Distinct(BuildAgeQueue(age, clk))
    ensures forall p: nat :: p in BuildAgeQueue(age, clk) <==> p < |age| && age[p] > 0
  {
    AgeQueueIs(age, clk % |age|, |age|);
    forall p: nat
      ensures p in BuildAgeQueue(age, clk) <==> p < |age| && age[p] > 0
    {
      if p < |age| {
        AllVisited(|age|, clk % |age|, p);
      }
    }
  }

  // ------------------------------------------------------------ draining

  // The links still to be served have something to send.
  predicate Waiting<T>(qs: seq<seq<T>>, order: seq<nat>) {
    Distinct(order) && forall i :: 0 <= i < |order| ==> order[i] < |qs| && qs[order[i]] != []
  }

  lemma OthersWait(s: State, l: nat, order: seq<nat>)
    requires s.Shaped() && order != [] && l == order[0] && Waiting(s.linkReq, order)
    ensures Waiting(ToQuad(s, l).linkReq, order[1..])
  {
  }

  lemma {:induction false} ToQuadsInv(s: State, order: seq<nat>)
    requires Inv(s) && Waiting(s.linkReq, order)
    ensures Inv(ToQuads(s, order))
    decreases |order|
  {
    if order != [] {
      ToQuadInv(s, order[0]);
      OthersWait(s, order[0], order);
      ToQuadsInv(ToQuad(s, order[0]), order[1..]);
    }
  }

  lemma PositiveWaits<T>(age: seq<nat>, qs: seq<seq<T>>, clk: nat)
    requires 0 < |age| && AgesMatch(age, qs)
    ensures Waiting(qs, BuildAgeQueue(age, clk))
  {
    BuildAgeQueueIs(age, clk);
    var order := BuildAgeQueue(age, clk);
    forall i | 0 <= i < |order|
      ensures order[i] < |qs| && qs[order[i]] != []
    {
      assert order[i] in order;
    }
  }

  lemma CoolQuads(s: State, busy: seq<int>)
    requires Inv(s) && |busy| == Quads
    ensures Inv(s.(quadBusy := busy))
  {
    var s' := s.(quadBusy := busy);
    OnlyBusy(s, s');
    BooksStay(s, s');
  }

  lemma CoolLinks(s: State, busy: seq<int>)
    requires Inv(s) && |busy| == s.Links()
    ensures Inv(s.(linkBusy := busy))
  {
    var s' := s.(linkBusy := busy);
    OnlyBusy(s, s');
    BooksStay(s, s');
  }

  lemma OnlyBusy(s: State, s': State)
    requires s' == s.(quadBusy := s'.quadBusy, linkBusy := s'.linkBusy)
    ensures SameBooks(s, s')
  {
  }

  lemma DrainRequestsInv(s: State, accept: seq<bool>)
    requires Inv(s) && |accept| == Quads
    ensures Inv(DrainRequests(s, accept))
  {
    ToVaultsInv(s, Quads, accept);
    var s1 := ToVaults(s, Quads, accept);
    CoolQuads(s1, Cool(s1.quadBusy));
    var s2 := s1.(quadBusy := Cool(s1.quadBusy));
    PositiveWaits(s2.linkAge, s2.linkReq, s2.logicClk);
    ToQuadsInv(s2, BuildAgeQueue(s2.linkAge, s2.logicClk));
  }
}
