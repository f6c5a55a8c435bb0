// The way back through the crossbar, and what every run of the cube keeps.
module HmcTheorems {
  import opened Basics
  import opened HmcSpec
  import opened HmcConservation

  // -------------------------------------------------------- link to caller

  lemma Back(s: State, s': State)
    requires s'.inserted == s.inserted && Responses(s') == Responses(s)
    requires s'.linkReq == s.linkReq && s'.quadReq == s.quadReq && s'.vault == s.vault && s'.lookup == s.lookup
    ensures SameBooks(s, s')
  {
  }

  function Delivered(s: State, l: nat): State
    requires s.Shaped() && l < s.Links() && s.linkResp[l] != []
  {
    s.(delivered := s.delivered + [s.linkResp[l][0]], linkResp := s.linkResp[l := s.linkResp[l][1..]])
  }

  lemma DeliverIs(s: State, l: nat)
    requires s.Shaped() && l < s.Links()
    ensures Deliver(s, l) == s || (s.linkResp[l] != [] && Deliver(s, l) == Delivered(s, l))
  {
  }

  lemma DeliverOrderly(s: State, l: nat)
    requires Orderly(s) && l < s.Links() && s.linkResp[l] != []
    ensures Orderly(Delivered(s, l))
  {
  }

  lemma DeliverBooks(s: State, l: nat)
    requires s.Shaped() && l < s.Links() && s.linkResp[l] != []
    ensures SameBooks(s, Delivered(s, l))
  {
    hide *;
    DeliveredStages(s, l);
    var s' := Delivered(s, l);
    StagesOf(s);
    StagesOf(s');
    BagAllPop(s.linkResp, l, RespId);
    BagPush(s.delivered, s.linkResp[l][0], RespId);
    FourMove(BagAll(s.linkResp, RespId), BagAll(s'.linkResp, RespId), Bag(s.delivered, RespId), Bag(s'.delivered, RespId),
             Bag(s.lookup, RespId), BagAll(s.quadResp, RespId), multiset{RespId(s.linkResp[l][0])});
    Back(s, s');
  }

  lemma DeliveredStages(s: State, l: nat)
    requires s.Shaped() && l < s.Links() && s.linkResp[l] != []
    ensures var s' := Delivered(s, l);
            && s'.inserted == s.inserted && s'.linkReq == s.linkReq && s'.quadReq == s.quadReq && s'.vault == s.vault
            && s'.lookup == s.lookup && s'.quadResp == s.quadResp && s'.delivered == s.delivered + [s.linkResp[l][0]]
            && s'.linkResp == s.linkResp[l := s.linkResp[l][1..]] && l < |s.linkResp|
  {
  }

  lemma DeliverInv(s: State, l: nat)
    requires Inv(s) && l < s.Links()
    ensures Inv(Deliver(s, l))
  {
    hide Conserved, SameBooks, Orderly, Delivered;
    InvHas(s);
    DeliverIs(s, l);
    if s.linkResp[l] != [] {
      DeliverBooks(s, l);
      DeliverOrderly(s, l);
      BooksStay(s, Delivered(s, l));
    }
  }

  lemma {:induction false} DeliverAllInv(s: State, n: nat)
    requires Inv(s) && n <= s.Links()
    ensures Inv(DeliverAll(s, n))
  {
    hide Conserved, Orderly, Deliver, DeliverAll;
    InvHas(s);
    if n == 0 {
      DeliverNone(s);
    } else {
      DeliverAllInv(s, n - 1);
      DeliverLast(s, n);
      DeliverInv(DeliverAll(s, n - 1), n - 1);
    }
  }

  lemma DeliverNone(s: State)
    requires s.Shaped()
    ensures DeliverAll(s, 0) == s
  {
  }

  lemma DeliverLast(s: State, n: nat)
    requires Inv(s) && 0 < n <= s.Links()
    ensures DeliverAll(s, n) == Deliver(DeliverAll(s, n - 1), n - 1) && n - 1 < DeliverAll(s, n - 1).Links()
  {
  }

  // ----------------------------------------------------------- quad to link

  predicate CanReturn(s: State, q: nat)
    requires s.Shaped() && q < Quads && s.quadResp[q] != [] && s.quadResp[q][0].link < s.Links()
  {
    var l := s.quadResp[q][0].link;
    |s.linkResp[l]| < s.depth && s.linkBusy[l] <= 0
  }

  lemma LinkMoveBooks(s: State, s': State, q: nat, l: nat, x: Resp)
    requires s.Shaped() && l < s.Links() && q < Quads && s.quadResp[q] != []
    requires s'.quadResp == s.quadResp[q := s.quadResp[q][1..]] && s'.linkResp == s.linkResp[l := s.linkResp[l] + [x]]
    requires x.id == s.quadResp[q][0].id
    requires s'.linkReq == s.linkReq && s'.quadReq == s.quadReq && s'.vault == s.vault && s'.lookup == s.lookup
    requires s'.delivered == s.delivered && s'.inserted == s.inserted
    ensures SameBooks(s, s')
  {
    hide SameBooks, Responses, Bag, BagAll;
    StagesOf(s);
    StagesOf(s');
    BagAllPop(s.quadResp, q, RespId);
    BagAllPush(s.linkResp, l, x, RespId);
    FourMove(BagAll(s.quadResp, RespId), BagAll(s'.quadResp, RespId), BagAll(s.linkResp, RespId), BagAll(s'.linkResp, RespId),
             Bag(s.lookup, RespId), Bag(s.delivered, RespId), multiset{RespId(x)});
    Back(s, s');
  }

  lemma FrontReturns(s: State, q: nat)
    requires Orderly(s) && q < Quads && s.quadResp[q] != []
    ensures s.quadResp[q][0].link < s.Links()
  {
  }

  lemma ToLinkReturns(s: State, q: nat) returns (x: Resp)
    requires s.Shaped() && q < Quads && s.quadResp[q] != [] && s.quadResp[q][0].link < s.Links() && CanReturn(s, q)
    ensures x.id == s.quadResp[q][0].id
    ensures var s' := ToLink(s, q);
            var l := s.quadResp[q][0].link;
            && s'.quadResp == s.quadResp[q := s.quadResp[q][1..]] && s'.linkResp == s.linkResp[l := s.linkResp[l] + [x]]
            && s'.linkReq == s.linkReq && s'.quadReq == s.quadReq && s'.vault == s.vault && s'.lookup == s.lookup
            && s'.delivered == s.delivered && s'.inserted == s.inserted
  {
    x := s.quadResp[q][0].(exit := s.logicClk + s.quadResp[q][0].flits);
  }

  lemma ToLinkOrderly(s: State, q: nat)
    requires Orderly(s) && q < Quads && s.quadResp[q] != []
    ensures Orderly(ToLink(s, q))
  {
  }

  lemma ToLinkWaits(s: State, q: nat)
    requires s.Shaped() && q < Quads && s.quadResp[q] != [] && s.quadResp[q][0].link < s.Links() && !CanReturn(s, q)
    ensures SameBooks(s, ToLink(s, q))
  {
  }

  lemma ToLinkInv(s: State, q: nat)
    requires Inv(s) && q < Quads && s.quadResp[q] != []
    ensures Inv(ToLink(s, q))
  {
    hide SameBooks, Conserved, Orderly, ToLink;
    InvHas(s);
    FrontReturns(s, q);
    ToLinkOrderly(s, q);
    if CanReturn(s, q) {
      var x := ToLinkReturns(s, q);
      LinkMoveBooks(s, ToLink(s, q), q, s.quadResp[q][0].link, x);
    } else {
      ToLinkWaits(s, q);
    }
    BooksStay(s, ToLink(s, q));
  }

  lemma OtherQuadsWait(s: State, q: nat, order: seq<nat>)
    requires s.Shaped() && order != [] && q == order[0] && Waiting(s.quadResp, order)
    ensures Waiting(ToLink(s, q).quadResp, order[1..])
  {
  }

  lemma {:induction false} ToLinksInv(s: State, order: seq<nat>)
    requires Inv(s) && Waiting(s.quadResp, order)
    ensures Inv(ToLinks(s, order))
    decreases |order|
  {
    if order != [] {
      ToLinkInv(s, order[0]);
      OtherQuadsWait(s, order[0], order);
      ToLinksInv(ToLink(s, order[0]), order[1..]);
    }
  }

  lemma DrainResponsesInv(s: State)
    requires Inv(s)
    ensures Inv(DrainResponses(s))
  {
    DeliverAllInv(s, s.Links());
    var s1 := DeliverAll(s, s.Links());
    CoolLinks(s1, Cool(s1.linkBusy));
    var s2 := s1.(linkBusy := Cool(s1.linkBusy));
    PositiveWaits(s2.quadAge, s2.quadResp, s2.logicClk);
    ToLinksInv(s2, BuildAgeQueue(s2.quadAge, s2.logicClk));
  }

  // ----------------------------------------------------------- vault to quad

  lemma {:induction false} InBag<T>(q: seq<T>, f: T -> nat, k: nat) returns (i: nat)
    requires k in Bag(q, f)
    ensures i < |q| && f(q[i]) == k
  {
    if f(q[|q| - 1]) == k {
      i := |q| - 1;
    } else {
      i := InBag(q[..|q| - 1], f, k);
    }
  }

  // Every completed request finds a waiting response.
  lemma AlwaysFinds(s: State, v: nat)
    requires Inv(s) && v < |s.vault|
    ensures Finds(s.lookup, s.vault[v].addr)
  {
    BagDrop(s.vault, v, ReqAddr);
    var i := InBag(s.lookup, RespAddr, s.vault[v].addr);
  }

  function Completed(s: State, v: nat, pick: nat): State
    requires s.Shaped() && v < |s.vault| && pick < |s.lookup| && s.lookup[pick].quad < Quads
  {
    var resp := s.lookup[pick];
    s.(vault := Remove(s.vault, v), lookup := Remove(s.lookup, pick),
       quadResp := s.quadResp[resp.quad := s.quadResp[resp.quad] + [resp]], quadAge := s.quadAge[resp.quad := 1])
  }

  lemma CompletedStages(s: State, v: nat, pick: nat)
    requires s.Shaped() && v < |s.vault| && pick < |s.lookup| && s.lookup[pick].quad < Quads
    requires s.lookup[pick].addr == s.vault[v].addr
    ensures var s' := Completed(s, v, pick);
            var q := s.lookup[pick].quad;
            && q < |s.quadResp| && RespAddr(s.lookup[pick]) == ReqAddr(s.vault[v])
            && s'.inserted == s.inserted && s'.linkReq == s.linkReq && s'.quadReq == s.quadReq
            && s'.vault == Remove(s.vault, v) && s'.lookup == Remove(s.lookup, pick)
            && s'.quadResp == s.quadResp[q := s.quadResp[q] + [s.lookup[pick]]]
            && s'.linkResp == s.linkResp && s'.delivered == s.delivered
  {
  }

  lemma CompletedBooks(s: State, v: nat, pick: nat)
    requires s.Shaped() && v < |s.vault| && pick < |s.lookup| && s.lookup[pick].quad < Quads
    requires s.lookup[pick].addr == s.vault[v].addr
    ensures var s' := Completed(s, v, pick);
            && s'.inserted == s.inserted && Responses(s') == Responses(s)
            && Requests(s) == Requests(s') + multiset{ReqId(s.vault[v])}
            && Asked(s) == Asked(s') + multiset{ReqAddr(s.vault[v])}
            && Bag(s.lookup, RespAddr) == Bag(s'.lookup, RespAddr) + multiset{ReqAddr(s.vault[v])}
  {
    hide *;
    CompletedStages(s, v, pick);
    var s', q, x := Completed(s, v, pick), s.lookup[pick].quad, s.lookup[pick];
    StagesOf(s);
    StagesOf(s');
    BagDrop(s.lookup, pick, RespId);
    BagDrop(s.lookup, pick, RespAddr);
    BagDrop(s.vault, v, ReqId);
    BagDrop(s.vault, v, ReqAddr);
    BagAllPush(s.quadResp, q, x, RespId);
    FourMove(Bag(s.lookup, RespId), Bag(s'.lookup, RespId), BagAll(s.quadResp, RespId), BagAll(s'.quadResp, RespId),
             BagAll(s.linkResp, RespId), Bag(s.delivered, RespId), multiset{RespId(x)});
    ThreeMore(BagAll(s'.linkReq, ReqId), BagAll(s'.quadReq, ReqId), Bag(s'.vault, ReqId), multiset{ReqId(s.vault[v])});
    ThreeMore(BagAll(s'.linkReq, ReqAddr), BagAll(s'.quadReq, ReqAddr), Bag(s'.vault, ReqAddr), multiset{ReqAddr(s.vault[v])});
  }

  lemma CancelSame(a: multiset<nat>, b: multiset<nat>, x: multiset<nat>)
    requires a + x == b + x
    ensures a == b
  {
    forall k: nat
      ensures a[k] == b[k]
    {
      assert (a + x)[k] == (b + x)[k];
    }
  }

  lemma CompletedConserved(s: State, v: nat, pick: nat)
    requires s.Shaped() && v < |s.vault| && pick < |s.lookup| && s.lookup[pick].quad < Quads
    requires s.lookup[pick].addr == s.vault[v].addr && Conserved(s)
    ensures Conserved(Completed(s, v, pick))
  {
    hide Requests, Responses, Asked, Bag, BagAll, Completed;
    var s' := Completed(s, v, pick);
    CompletedBooks(s, v, pick);
    CancelSame(Asked(s'), Bag(s'.lookup, RespAddr), multiset{ReqAddr(s.vault[v])});
    forall id: nat
      ensures Requests(s')[id] <= if id < s'.inserted then 1 else 0
    {
      OneMore(Requests(s'), Requests(s), ReqId(s.vault[v]), id);
    }
  }

  lemma CompletedOrderly(s: State, v: nat, pick: nat)
    requires Orderly(s) && v < |s.vault| && pick < |s.lookup| && s.lookup[pick].quad < Quads
    ensures Orderly(Completed(s, v, pick))
  {
  }

  lemma PickRouted(s: State, pick: nat)
    requires Orderly(s) && pick < |s.lookup|
    ensures s.lookup[pick].quad < Quads
  {
  }

  lemma CallbackIs(s: State, v: nat, pick: nat)
    requires s.Shaped() && v < |s.vault| && Finds(s.lookup, s.vault[v].addr)
    requires pick < |s.lookup| ==> s.lookup[pick].quad < Quads
    ensures VaultCallback(s, v, pick) ==
            if pick < |s.lookup| && s.lookup[pick].addr == s.vault[v].addr then Completed(s, v, pick) else s
  {
  }

  lemma VaultCallbackInv(s: State, v: nat, pick: nat)
    requires Inv(s) && v < |s.vault|
    ensures Inv(VaultCallback(s, v, pick))
  {
    hide Conserved, Orderly, Completed, VaultCallback, Finds;
    InvHas(s);
    AlwaysFinds(s, v);
    if pick < |s.lookup| {
      PickRouted(s, pick);
      if s.lookup[pick].addr == s.vault[v].addr {
        CompletedConserved(s, v, pick);
        CompletedOrderly(s, v, pick);
      }
    }
    CallbackIs(s, v, pick);
  }

  // -------------------------------------------------------------------- runs

  lemma ClockInv(s: State)
    requires Inv(s)
    ensures Inv(s.(logicClk := s.logicClk + 1))
  {
    hide Conserved, Orderly, SameBooks;
    var s' := s.(logicClk := s.logicClk + 1);
    InvHas(s);
    OnlyClock(s);
    BooksStay(s, s');
  }

  lemma OnlyClock(s: State)
    ensures SameBooks(s, s.(logicClk := s.logicClk + 1))
    ensures Orderly(s) ==> Orderly(s.(logicClk := s.logicClk + 1))
  {
  }

  lemma StepInv(s: State, op: Op)
    requires Inv(s) && OpOk(op)
    ensures Inv(Step(s, op))
  {
    hide Inv, InsertHMCReq, DrainRequests, DrainResponses, VaultCallback;
    InvHas(s);
    match op {
      case OpInsert(addr, quad, flits, respFlits) => InsertHMCReqInv(s, addr, quad, flits, respFlits);
      case OpRequests(accept) => DrainRequestsInv(s, accept);
      case OpResponses => DrainResponsesInv(s);
      case OpVault(v, pick) =>
        if v < |s.vault| {
          VaultCallbackInv(s, v, pick);
        }
      case OpLogicClock => ClockInv(s);
    }
  }

  lemma InsertHMCReqInv(s: State, addr: nat, quad: nat, flits: nat, respFlits: nat)
    requires Inv(s) && quad < Quads
    ensures Inv(InsertHMCReq(s, addr, quad, flits, respFlits).0)
  {
    TryInv(s, Req(s.inserted, addr, quad, flits, respFlits, 0), s.Links());
  }

  lemma {:induction false} RunInv(s: State, ops: seq<Op>)
    requires Inv(s) && AllOk(ops)
    ensures Inv(Run(s, ops))
  {
    if ops != [] {
      RunInv(s, ops[..|ops| - 1]);
      StepInv(Run(s, ops[..|ops| - 1]), ops[|ops| - 1]);
    }
  }

  lemma {:induction false} EmptyBagAll<T>(qs: seq<seq<T>>, f: T -> nat)
    requires forall i :: 0 <= i < |qs| ==> qs[i] == []
    ensures BagAll(qs, f) == multiset{}
  {
    if qs != [] {
      EmptyBagAll(qs[..|qs| - 1], f);
    }
  }

  lemma InitInv(links: nat, depth: nat)
    requires 0 < links
    ensures Inv(Init(links, depth))
  {
    var s := Init(links, depth);
    EmptyBagAll(s.linkReq, ReqId);
    EmptyBagAll(s.quadReq, ReqId);
    EmptyBagAll(s.linkReq, ReqAddr);
    EmptyBagAll(s.quadReq, ReqAddr);
    EmptyBagAll(s.quadResp, RespId);
    EmptyBagAll(s.linkResp, RespId);
  }

  // ---------------------------------------------------------------- theorems

  // On every run from reset: no queue's front is taken when empty and every lookup
  // succeeds; each inserted request has exactly one response, in exactly one place;
  // the bounded queues stay within depth; and an age is positive iff its queue
  // holds something.
  lemma CrossbarConserves(links: nat, depth: nat, ops: seq<Op>)
    requires 0 < links && AllOk(ops)
    ensures var s := Run(Init(links, depth), ops);
            && !s.failed && Conserved(s)
            && AgesMatch(s.linkAge, s.linkReq) && AgesMatch(s.quadAge, s.quadResp)
            && WithinDepth(s.linkReq, s.depth) && WithinDepth(s.quadReq, s.depth) && WithinDepth(s.linkResp, s.depth)
  {
    InitInv(links, depth);
    RunInv(Init(links, depth), ops);
  }

  predicate Quiet<T>(qs: seq<seq<T>>) { forall i :: 0 <= i < |qs| ==> qs[i] == [] }

  lemma BagHolds<T>(q: seq<T>, f: T -> nat)
    ensures Bag(q, f) == multiset{} ==> q == []
  {
    if q != [] {
      BagUnfold(q, f);
      assert f(q[|q| - 1]) in Bag(q, f);
    }
  }

  lemma NothingAsked(s: State)
    requires Conserved(s) && Quiet(s.linkReq) && Quiet(s.quadReq) && s.vault == []
    ensures s.lookup == []
  {
    EmptyBagAll(s.linkReq, ReqAddr);
    EmptyBagAll(s.quadReq, ReqAddr);
    assert Asked(s) == multiset{};
    BagHolds(s.lookup, RespAddr);
  }

  // Once nothing is under way, every inserted request has been answered exactly once
  // and nothing else was.
  lemma QuietMeansAnswered(links: nat, depth: nat, ops: seq<Op>, id: nat)
    requires 0 < links && AllOk(ops)
    requires var s := Run(Init(links, depth), ops);
             Quiet(s.linkReq) && Quiet(s.quadReq) && s.vault == [] && Quiet(s.quadResp) && Quiet(s.linkResp)
    ensures var s := Run(Init(links, depth), ops);
            Bag(s.delivered, RespId)[id] == if id < s.inserted then 1 else 0
  {
    CrossbarConserves(links, depth, ops);
    var s := Run(Init(links, depth), ops);
    NothingAsked(s);
    EmptyBagAll(s.quadResp, RespId);
    EmptyBagAll(s.linkResp, RespId);
    assert Responses(s)[id] == Bag(s.delivered, RespId)[id];
  }

  // ------------------------------------------------- insertion and its links

  function LinkAfter(s: State, k: nat): nat
    requires s.Shaped()
  {
    (s.nextLink + k) % s.Links()
  }

  predicate RoomAt(s: State, k: nat)
    requires s.Shaped()
  {
    |s.linkReq[LinkAfter(s, k)]| < s.depth
  }

  // Stepping over one link and then looking k further is looking k + 1 further.
  lemma StepLink(links: nat, link: nat, k: nat)
    requires link < links
    ensures ((link + 1) % links + k) % links == (link + (k + 1)) % links
  {
    hide *;
    if link + 1 == links {
      Quotient(link + 1, links, 1, 0);
      WrapOnce(k, links);
    } else {
      Quotient(link + 1, links, 0, link + 1);
    }
  }

  lemma WrapOnce(k: nat, m: nat)
    requires 0 < m
    ensures (m + k) % m == k % m
  {
    var q := k / m;
    assert q * m + m == (q + 1) * m;
    Quotient(m + k, m, q + 1, k % m);
  }

  lemma NextRoom(s: State, k: nat)
    requires s.Shaped()
    ensures RoomAt(IterateNextLink(s), k) <==> RoomAt(s, k + 1)
  {
    hide LinkAfter;
    NextLink(s, k);
  }

  lemma NextLink(s: State, k: nat)
    requires s.Shaped()
    ensures LinkAfter(IterateNextLink(s), k) == LinkAfter(s, k + 1)
  {
    StepLink(s.Links(), s.nextLink, k);
    NextLinkIs(s);
    hide IterateNextLink;
  }

  lemma NextLinkIs(s: State)
    requires s.Shaped()
    ensures IterateNextLink(s).Shaped() && IterateNextLink(s).Links() == s.Links()
    ensures IterateNextLink(s).nextLink == (s.nextLink + 1) % s.Links()
  {
  }

  lemma RoomNow(s: State)
    requires s.Shaped()
    ensures RoomAt(s, 0) <==> |s.linkReq[s.nextLink]| < s.depth
  {
    assert LinkAfter(s, 0) == s.nextLink;
  }

  lemma TryUnfold(s: State, req: Req, n: nat)
    requires s.Shaped()
    ensures IterateNextLink(s).Shaped()
    ensures !TryLinks(s, req, 0).1
    ensures n > 0 ==> (TryLinks(s, req, n).1 <==> |s.linkReq[s.nextLink]| < s.depth || TryLinks(IterateNextLink(s), req, n - 1).1)
  {
  }

  // A request is taken iff one of the links tried has room.
  lemma {:induction false} TriedAll(s: State, req: Req, n: nat)
    requires s.Shaped()
    ensures TryLinks(s, req, n).1 <==> exists k: nat :: k < n && RoomAt(s, k)
    decreases n
  {
    hide TryLinks, RoomAt, LinkAfter, IterateNextLink;
    TryUnfold(s, req, n);
    if n > 0 {
      RoomNow(s);
      var s' := IterateNextLink(s);
      TriedAll(s', req, n - 1);
      forall k: nat
        ensures RoomAt(s', k) <==> RoomAt(s, k + 1)
      {
        NextRoom(s, k);
      }
      if k: nat :| 0 < k < n && RoomAt(s, k) {
        assert RoomAt(s', k - 1);
      }
    }
  }

  // An insertion succeeds exactly when some link has room.
  lemma InsertedIffRoom(s: State, addr: nat, quad: nat, flits: nat, respFlits: nat)
    requires s.Shaped()
    ensures InsertHMCReq(s, addr, quad, flits, respFlits).1 <==> HasRoom(s)
  {
    var n := s.Links();
    TriedAll(s, Req(s.inserted, addr, quad, flits, respFlits, 0), n);
    if l: nat :| l < |s.linkReq| && |s.linkReq[l]| < s.depth {
      var k: nat := if l >= s.nextLink then l - s.nextLink else l + n - s.nextLink;
      TurnIs(n, s.nextLink, k);
      assert LinkAfter(s, k) == Turn(n, s.nextLink, k) == l;
      assert RoomAt(s, k);
    }
  }
}
