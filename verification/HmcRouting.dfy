// Where the crossbar takes each request and brings its response: into the quad of the
// request, back out by the link that took it, and never sooner than its flits allow.
// Which link took a request, and when something crossed, is read off the runs.
module HmcRouting {
  import opened Basics
  import opened HmcSpec
  import opened HmcConservation
  import opened HmcTheorems

  // ------------------------------------------------------------------ insertion

  // The insertion, in terms of the queues: the first link with room from the
  // round-robin position on takes the request, and its response waits under the same
  // id and address for the same link and quad.
  predicate Lands(s: State, s': State, l: nat, addr: nat, quad: nat, flits: nat, respFlits: nat) {
    && l < |s.linkReq| && s'.linkReq == s.linkReq[l := s.linkReq[l] + [Req(s.inserted, addr, quad, flits, respFlits, 0)]]
    && |s'.lookup| == |s.lookup| + 1 && s'.lookup[..|s.lookup|] == s.lookup
    && s'.lookup[|s.lookup|] == Resp(s.inserted, addr, l, quad, respFlits, 0)
    && s'.quadReq == s.quadReq && s'.vault == s.vault && s'.quadResp == s.quadResp && s'.linkResp == s.linkResp
    && s'.delivered == s.delivered && s'.inserted == s.inserted + 1 && s'.logicClk == s.logicClk
  }

  // All links tried before the k-th are full.
  predicate FullBefore(s: State, k: nat)
    requires s.Shaped()
  {
    forall m: nat :: m < k ==> !RoomAt(s, m)
  }

  lemma LandsHere(s: State, addr: nat, quad: nat, flits: nat, respFlits: nat)
    requires s.Shaped() && |s.linkReq[s.nextLink]| < s.depth
    ensures var req := Req(s.inserted, addr, quad, flits, respFlits, 0);
            Lands(s, IterateNextLink(InsertReqToLink(s, req, s.nextLink)), s.nextLink, addr, quad, flits, respFlits)
  {
  }

  lemma LandsFrom(s: State, s0: State, s': State, l: nat, addr: nat, quad: nat, flits: nat, respFlits: nat)
    requires s0 == s.(nextLink := s0.nextLink) && Lands(s0, s', l, addr, quad, flits, respFlits)
    ensures Lands(s, s', l, addr, quad, flits, respFlits)
  {
  }

  lemma StillFull(s: State, k: nat)
    requires s.Shaped() && |s.linkReq[s.nextLink]| >= s.depth
    ensures IterateNextLink(s).Shaped()
    ensures FullBefore(IterateNextLink(s), k) ==> FullBefore(s, k + 1)
    ensures LinkAfter(IterateNextLink(s), k) == LinkAfter(s, k + 1)
  {
    NextLink(s, k);
    RoomNow(s);
    if FullBefore(IterateNextLink(s), k) {
      forall m: nat | m < k + 1
        ensures !RoomAt(s, m)
      {
        if m > 0 {
          NextRoom(s, m - 1);
        }
      }
    }
    hide LinkAfter, RoomAt;
  }

  lemma {:induction false} TryLands(s: State, n: nat, addr: nat, quad: nat, flits: nat, respFlits: nat) returns (k: nat)
    requires s.Shaped()
    ensures var r := TryLinks(s, Req(s.inserted, addr, quad, flits, respFlits, 0), n);
            r.1 ==> k < n && FullBefore(s, k) && Lands(s, r.0, LinkAfter(s, k), addr, quad, flits, respFlits)
    decreases n
  {
    hide Lands, RoomAt, LinkAfter, InsertReqToLink;
    k := 0;
    if n > 0 {
      if |s.linkReq[s.nextLink]| < s.depth {
        LandsHere(s, addr, quad, flits, respFlits);
        FirstLink(s);
      } else {
        var s0 := IterateNextLink(s);
        var k0 := TryLands(s0, n - 1, addr, quad, flits, respFlits);
        k := k0 + 1;
        StillFull(s, k0);
        var r := TryLinks(s0, Req(s0.inserted, addr, quad, flits, respFlits, 0), n - 1);
        if r.1 {
          LandsFrom(s, s0, r.0, LinkAfter(s0, k0), addr, quad, flits, respFlits);
        }
      }
    }
  }

  lemma FirstLink(s: State)
    requires s.Shaped()
    ensures LinkAfter(s, 0) == s.nextLink
  {
  }

  // A successful insertion lands on the first link with room.
  lemma InsertLands(s: State, addr: nat, quad: nat, flits: nat, respFlits: nat) returns (k: nat)
    requires s.Shaped()
    ensures var r := InsertHMCReq(s, addr, quad, flits, respFlits);
            r.1 ==> FullBefore(s, k) && Lands(s, r.0, LinkAfter(s, k), addr, quad, flits, respFlits)
  {
    k := TryLands(s, s.Links(), addr, quad, flits, respFlits);
    hide Lands, FullBefore, TryLinks;
  }

  lemma {:induction false} TryKeeps(s: State, req: Req, n: nat)
    requires s.Shaped()
    ensures var r := TryLinks(s, req, n); !r.1 ==> r.0 == s.(nextLink := r.0.nextLink)
    decreases n
  {
    if n > 0 {
      TryKeeps(IterateNextLink(s), req, n - 1);
    }
  }

  // ------------------------------------------------------------------ routes

  datatype Route = Route(link: nat, quad: nat)

  // The first queue that is longer than before.
  function Grown(a: seq<seq<Req>>, b: seq<seq<Req>>): nat
    requires |a| == |b|
  {
    if a == [] then 0 else if |b[0]| > |a[0]| then 0 else 1 + Grown(a[1..], b[1..])
  }

  // For every inserted request, by id: the link whose queue grew, and the quad asked for.
  ghost function Routes(s: State, ops: seq<Op>): seq<Route>
    requires s.Shaped() && AllOk(ops)
  {
    if ops == [] then []
    else
      var before, after, op := Run(s, ops[..|ops| - 1]), Run(s, ops), ops[|ops| - 1];
      Routes(s, ops[..|ops| - 1])
      + (if op.OpInsert? && after.inserted > before.inserted && |before.linkReq| == |after.linkReq|
         then [Route(Grown(before.linkReq, after.linkReq), op.quad)] else [])
  }

  predicate ReqOn(routes: seq<Route>, r: Req) { r.id < |routes| && routes[r.id].quad == r.quad }

  predicate RespOn(routes: seq<Route>, r: Resp) { r.id < |routes| && routes[r.id] == Route(r.link, r.quad) }

  predicate LinksHold(s: State, routes: seq<Route>) {
    forall l, j :: 0 <= l < |s.linkReq| && 0 <= j < |s.linkReq[l]| ==>
      ReqOn(routes, s.linkReq[l][j]) && routes[s.linkReq[l][j].id].link == l
  }

  predicate QuadsHold(s: State, routes: seq<Route>) {
    forall q, j :: 0 <= q < |s.quadReq| && 0 <= j < |s.quadReq[q]| ==> ReqOn(routes, s.quadReq[q][j]) && s.quadReq[q][j].quad == q
  }

  predicate WaitHold(s: State, routes: seq<Route>) {
    && (forall j :: 0 <= j < |s.lookup| ==> RespOn(routes, s.lookup[j]))
    && (forall j :: 0 <= j < |s.delivered| ==> RespOn(routes, s.delivered[j]))
  }

  predicate BackHold(s: State, routes: seq<Route>) {
    && (forall q, j :: 0 <= q < |s.quadResp| && 0 <= j < |s.quadResp[q]| ==> RespOn(routes, s.quadResp[q][j]) && s.quadResp[q][j].quad == q)
    && (forall l, j :: 0 <= l < |s.linkResp| && 0 <= j < |s.linkResp[l]| ==> RespOn(routes, s.linkResp[l][j]) && s.linkResp[l][j].link == l)
  }

  // Every request stands in its link's queue or its quad's, and every response waits
  // for, stands in and has left by the link that took its request.
  predicate OnRoute(s: State, routes: seq<Route>) {
    |routes| == s.inserted && LinksHold(s, routes) && QuadsHold(s, routes) && WaitHold(s, routes) && BackHold(s, routes)
  }

  lemma LandsOnRoute(s: State, s': State, l: nat, addr: nat, quad: nat, flits: nat, respFlits: nat, routes: seq<Route>)
    requires Lands(s, s', l, addr, quad, flits, respFlits) && OnRoute(s, routes)
    ensures OnRoute(s', routes + [Route(l, quad)])
  {
    LandsLinks(s, s', l, addr, quad, flits, respFlits, routes);
    LandsWait(s, s', l, addr, quad, flits, respFlits, routes);
    LandsRest(s, s', l, addr, quad, flits, respFlits, routes);
    hide LinksHold, QuadsHold, WaitHold, BackHold;
  }

  lemma LandsLinks(s: State, s': State, l: nat, addr: nat, quad: nat, flits: nat, respFlits: nat, routes: seq<Route>)
    requires Lands(s, s', l, addr, quad, flits, respFlits) && |routes| == s.inserted && LinksHold(s, routes)
    ensures LinksHold(s', routes + [Route(l, quad)])
  {
  }

  lemma LandsWait(s: State, s': State, l: nat, addr: nat, quad: nat, flits: nat, respFlits: nat, routes: seq<Route>)
    requires Lands(s, s', l, addr, quad, flits, respFlits) && |routes| == s.inserted && WaitHold(s, routes)
    ensures WaitHold(s', routes + [Route(l, quad)])
  {
    forall j | 0 <= j < |s'.lookup|
      ensures RespOn(routes + [Route(l, quad)], s'.lookup[j])
    {
      if j < |s.lookup| {
        assert s'.lookup[..|s.lookup|][j] == s.lookup[j];
      }
    }
  }

  lemma LandsRest(s: State, s': State, l: nat, addr: nat, quad: nat, flits: nat, respFlits: nat, routes: seq<Route>)
    requires Lands(s, s', l, addr, quad, flits, respFlits) && |routes| == s.inserted && QuadsHold(s, routes) && BackHold(s, routes)
    ensures QuadsHold(s', routes + [Route(l, quad)]) && BackHold(s', routes + [Route(l, quad)])
  {
  }

  lemma {:induction false} GrownAt(a: seq<seq<Req>>, l: nat, x: Req)
    requires l < |a|
    ensures Grown(a, a[l := a[l] + [x]]) == l
  {
    if l > 0 {
      assert a[l := a[l] + [x]][1..] == a[1..][l - 1 := a[1..][l - 1] + [x]];
      GrownAt(a[1..], l - 1, x);
    }
  }

  // ------------------------------------------------------------------ moving on

  lemma ToVaultOnRoute(s: State, i: nat, accept: bool, routes: seq<Route>)
    requires s.Shaped() && i < Quads && OnRoute(s, routes)
    ensures OnRoute(ToVault(s, i, accept), routes)
  {
    var s' := ToVault(s, i, accept);
    assert QuadsHold(s', routes) by {
      forall q, j | 0 <= q < |s'.quadReq| && 0 <= j < |s'.quadReq[q]|
        ensures ReqOn(routes, s'.quadReq[q][j]) && s'.quadReq[q][j].quad == q
      {
        assert s'.quadReq[q][j] in s.quadReq[q];
      }
    }
    hide QuadsHold;
  }

  lemma {:induction false} ToVaultsOnRoute(s: State, n: nat, accept: seq<bool>, routes: seq<Route>)
    requires s.Shaped() && n <= Quads == |accept| && OnRoute(s, routes)
    ensures OnRoute(ToVaults(s, n, accept), routes)
  {
    hide OnRoute, ToVault;
    if n > 0 {
      ToVaultsOnRoute(s, n - 1, accept, routes);
      ToVaultOnRoute(ToVaults(s, n - 1, accept), n - 1, accept[n - 1], routes);
    }
  }

  lemma ToQuadOnRoute(s: State, l: nat, routes: seq<Route>)
    requires s.Shaped() && l < s.Links() && OnRoute(s, routes)
    ensures OnRoute(ToQuad(s, l), routes)
  {
    ToQuadLinks(s, l, routes);
    ToQuadQuads(s, l, routes);
    ToQuadRest(s, l);
    hide LinksHold, QuadsHold, ToQuad;
  }

  lemma ToQuadRest(s: State, l: nat)
    requires s.Shaped() && l < s.Links()
    ensures var s' := ToQuad(s, l);
            && s'.inserted == s.inserted && s'.lookup == s.lookup && s'.delivered == s.delivered
            && s'.quadResp == s.quadResp && s'.linkResp == s.linkResp
  {
  }

  lemma ToQuadLinks(s: State, l: nat, routes: seq<Route>)
    requires s.Shaped() && l < s.Links() && LinksHold(s, routes)
    ensures LinksHold(ToQuad(s, l), routes)
  {
    var s' := ToQuad(s, l);
    forall m, j | 0 <= m < |s'.linkReq| && 0 <= j < |s'.linkReq[m]|
      ensures ReqOn(routes, s'.linkReq[m][j]) && routes[s'.linkReq[m][j].id].link == m
    {
      assert s'.linkReq[m][j] in s.linkReq[m];
    }
  }

  lemma ToQuadQuads(s: State, l: nat, routes: seq<Route>)
    requires s.Shaped() && l < s.Links() && LinksHold(s, routes) && QuadsHold(s, routes)
    ensures QuadsHold(ToQuad(s, l), routes)
  {
    var s' := ToQuad(s, l);
    forall q, j | 0 <= q < |s'.quadReq| && 0 <= j < |s'.quadReq[q]|
      ensures ReqOn(routes, s'.quadReq[q][j]) && s'.quadReq[q][j].quad == q
    {
      if j < |s.quadReq[q]| {
        assert s'.quadReq[q][j] == s.quadReq[q][j];
      }
    }
  }

  lemma {:induction false} ToQuadsOnRoute(s: State, order: seq<nat>, routes: seq<Route>)
    requires s.Shaped() && OnRoute(s, routes) && forall i :: 0 <= i < |order| ==> order[i] < s.Links()
    ensures OnRoute(ToQuads(s, order), routes)
    decreases |order|
  {
    if order != [] {
      ToQuadOnRoute(s, order[0], routes);
      ToQuadShaped(s, order[0]);
      ToQuadsOnRoute(ToQuad(s, order[0]), order[1..], routes);
    }
    hide OnRoute, ToQuad;
  }

  lemma ToQuadShaped(s: State, l: nat)
    requires s.Shaped() && l < s.Links()
    ensures ToQuad(s, l).Shaped() && ToQuad(s, l).Links() == s.Links()
  {
  }

  lemma SameStages(s: State, s': State, routes: seq<Route>)
    requires OnRoute(s, routes)
    requires s'.inserted == s.inserted && s'.linkReq == s.linkReq && s'.quadReq == s.quadReq && s'.lookup == s.lookup
    requires s'.delivered == s.delivered && s'.quadResp == s.quadResp && s'.linkResp == s.linkResp
    ensures OnRoute(s', routes)
  {
  }

  lemma DrainRequestsOnRoute(s: State, accept: seq<bool>, routes: seq<Route>)
    requires s.Shaped() && |accept| == Quads && OnRoute(s, routes)
    ensures OnRoute(DrainRequests(s, accept), routes)
  {
    hide OnRoute, ToVaults, ToQuads, BuildAgeQueue;
    var s1 := ToVaults(s, Quads, accept);
    ToVaultsOnRoute(s, Quads, accept, routes);
    var s2 := s1.(quadBusy := Cool(s1.quadBusy));
    SameStages(s1, s2, routes);
    OrderInRange(s2.linkAge, s2.logicClk);
    ToQuadsOnRoute(s2, BuildAgeQueue(s2.linkAge, s2.logicClk), routes);
  }

  lemma OrderInRange(age: seq<nat>, clk: nat)
    requires 0 < |age|
    ensures forall i :: 0 <= i < |BuildAgeQueue(age, clk)| ==> BuildAgeQueue(age, clk)[i] < |age|
  {
    AgeQueueInRange(age, clk % |age|, |age|);
  }

  lemma DeliverOnRoute(s: State, l: nat, routes: seq<Route>)
    requires s.Shaped() && l < s.Links() && OnRoute(s, routes)
    ensures OnRoute(Deliver(s, l), routes)
  {
    hide LinksHold, QuadsHold;
    var s' := Deliver(s, l);
    forall m, j | 0 <= m < |s'.linkResp| && 0 <= j < |s'.linkResp[m]|
      ensures RespOn(routes, s'.linkResp[m][j]) && s'.linkResp[m][j].link == m
    {
      assert s'.linkResp[m][j] in s.linkResp[m];
    }
    assert LinksHold(s', routes) == LinksHold(s, routes) && QuadsHold(s', routes) == QuadsHold(s, routes) by {
      SameRequests(s, s', routes);
    }
  }

  lemma SameRequests(s: State, s': State, routes: seq<Route>)
    requires s'.linkReq == s.linkReq && s'.quadReq == s.quadReq
    ensures LinksHold(s', routes) == LinksHold(s, routes) && QuadsHold(s', routes) == QuadsHold(s, routes)
  {
  }

  lemma {:induction false} DeliverAllOnRoute(s: State, n: nat, routes: seq<Route>)
    requires s.Shaped() && n <= s.Links() && OnRoute(s, routes)
    ensures OnRoute(DeliverAll(s, n), routes)
  {
    hide OnRoute, Deliver;
    if n > 0 {
      DeliverAllOnRoute(s, n - 1, routes);
      DeliverOnRoute(DeliverAll(s, n - 1), n - 1, routes);
    }
  }

  lemma ToLinkStages(s: State, q: nat)
    requires s.Shaped() && q < Quads
    ensures var s' := ToLink(s, q);
            s'.inserted == s.inserted && s'.linkReq == s.linkReq && s'.quadReq == s.quadReq && s'.lookup == s.lookup
            && s'.delivered == s.delivered && s'.Shaped() && s'.Links() == s.Links()
  {
  }

  lemma ToLinkBack(s: State, q: nat, routes: seq<Route>)
    requires s.Shaped() && q < Quads && BackHold(s, routes)
    ensures BackHold(ToLink(s, q), routes)
  {
    var s' := ToLink(s, q);
    forall p, j | 0 <= p < |s'.quadResp| && 0 <= j < |s'.quadResp[p]|
      ensures RespOn(routes, s'.quadResp[p][j]) && s'.quadResp[p][j].quad == p
    {
      assert s'.quadResp[p][j] in s.quadResp[p];
    }
    forall m, j | 0 <= m < |s'.linkResp| && 0 <= j < |s'.linkResp[m]|
      ensures RespOn(routes, s'.linkResp[m][j]) && s'.linkResp[m][j].link == m
    {
      if j < |s.linkResp[m]| {
        assert s'.linkResp[m][j] == s.linkResp[m][j];
      }
    }
  }

  lemma ToLinkOnRoute(s: State, q: nat, routes: seq<Route>)
    requires s.Shaped() && q < Quads && OnRoute(s, routes)
    ensures OnRoute(ToLink(s, q), routes)
  {
    ToLinkStages(s, q);
    ToLinkBack(s, q, routes);
    SameRequests(s, ToLink(s, q), routes);
    hide ToLink, LinksHold, QuadsHold, BackHold;
  }

  lemma {:induction false} ToLinksOnRoute(s: State, order: seq<nat>, routes: seq<Route>)
    requires s.Shaped() && OnRoute(s, routes) && forall i :: 0 <= i < |order| ==> order[i] < Quads
    ensures OnRoute(ToLinks(s, order), routes)
    decreases |order|
  {
    hide OnRoute, ToLink;
    if order != [] {
      ToLinkOnRoute(s, order[0], routes);
      ToLinkStages(s, order[0]);
      ToLinksOnRoute(ToLink(s, order[0]), order[1..], routes);
    }
  }

  lemma DrainResponsesOnRoute(s: State, routes: seq<Route>)
    requires s.Shaped() && OnRoute(s, routes)
    ensures OnRoute(DrainResponses(s), routes)
  {
    hide OnRoute, DeliverAll, ToLinks, BuildAgeQueue;
    var s1 := DeliverAll(s, s.Links());
    DeliverAllOnRoute(s, s.Links(), routes);
    var s2 := s1.(linkBusy := Cool(s1.linkBusy));
    SameStages(s1, s2, routes);
    OrderInRange(s2.quadAge, s2.logicClk);
    ToLinksOnRoute(s2, BuildAgeQueue(s2.quadAge, s2.logicClk), routes);
  }

  lemma CallbackOnRoute(s: State, v: nat, pick: nat, routes: seq<Route>)
    requires s.Shaped() && v < |s.vault| && OnRoute(s, routes)
    ensures OnRoute(VaultCallback(s, v, pick), routes)
  {
    hide LinksHold, QuadsHold, Finds;
    var s' := VaultCallback(s, v, pick);
    SameRequests(s, s', routes);
    forall j | 0 <= j < |s'.lookup|
      ensures RespOn(routes, s'.lookup[j])
    {
      assert s'.lookup[j] in s.lookup;
    }
    forall p, j | 0 <= p < |s'.quadResp| && 0 <= j < |s'.quadResp[p]|
      ensures RespOn(routes, s'.quadResp[p][j]) && s'.quadResp[p][j].quad == p
    {
      if j < |s.quadResp[p]| {
        assert s'.quadResp[p][j] == s.quadResp[p][j];
      }
    }
  }

  // ------------------------------------------------------------------ every run

  lemma StepOnRoute(s: State, op: Op, routes: seq<Route>) returns (more: seq<Route>)
    requires s.Shaped() && OpOk(op) && OnRoute(s, routes) && !s.failed
    ensures var s' := Step(s, op);
            && OnRoute(s', routes + more)
            && more == (if op.OpInsert? && s'.inserted > s.inserted && |s.linkReq| == |s'.linkReq|
                        then [Route(Grown(s.linkReq, s'.linkReq), op.quad)] else [])
  {
    hide OnRoute, InsertHMCReq, DrainRequests, DrainResponses, VaultCallback, Lands, LinkAfter, FullBefore;
    more := [];
    assert routes + [] == routes;
    match op {
      case OpInsert(addr, quad, flits, respFlits) =>
        var k := InsertLands(s, addr, quad, flits, respFlits);
        var r := InsertHMCReq(s, addr, quad, flits, respFlits);
        if r.1 {
          LandsGrows(s, r.0, LinkAfter(s, k), addr, quad, flits, respFlits);
          LandsOnRoute(s, r.0, LinkAfter(s, k), addr, quad, flits, respFlits, routes);
          more := [Route(LinkAfter(s, k), quad)];
        } else {
          NotInserted(s, addr, quad, flits, respFlits);
          SameStages(s, r.0, routes);
        }
      case OpRequests(accept) => DrainRequestsOnRoute(s, accept, routes);
      case OpResponses => DrainResponsesOnRoute(s, routes);
      case OpVault(v, pick) =>
        if v < |s.vault| {
          CallbackOnRoute(s, v, pick, routes);
        }
      case OpLogicClock => SameStages(s, s.(logicClk := s.logicClk + 1), routes);
    }
  }

  lemma LandsGrows(s: State, s': State, l: nat, addr: nat, quad: nat, flits: nat, respFlits: nat)
    requires Lands(s, s', l, addr, quad, flits, respFlits)
    ensures Grown(s.linkReq, s'.linkReq) == l && s'.inserted == s.inserted + 1 && |s'.linkReq| == |s.linkReq|
  {
    GrownAt(s.linkReq, l, Req(s.inserted, addr, quad, flits, respFlits, 0));
    hide Grown;
  }

  lemma NotInserted(s: State, addr: nat, quad: nat, flits: nat, respFlits: nat)
    requires s.Shaped()
    ensures var r := InsertHMCReq(s, addr, quad, flits, respFlits); !r.1 ==> r.0 == s.(nextLink := r.0.nextLink)
  {
    TryKeeps(s, Req(s.inserted, addr, quad, flits, respFlits, 0), s.Links());
  }

  // On every run the response of each request carries the link whose queue took the
  // request and the quad it asked for, wherever it is; it returns by that quad's queue
  // and leaves by that link's.
  lemma {:induction false} RunOnRoute(links: nat, depth: nat, ops: seq<Op>)
    requires 0 < links && AllOk(ops)
    ensures OnRoute(Run(Init(links, depth), ops), Routes(Init(links, depth), ops))
  {
    hide OnRoute, Step, Run, Inv, Init, Grown, OpOk;
    var s0 := Init(links, depth);
    InitInv(links, depth);
    InvHas(s0);
    if ops == [] {
      InitOnRoute(links, depth);
    } else {
      var before := ops[..|ops| - 1];
      RunOnRoute(links, depth, before);
      RunInv(s0, before);
      InvHas(Run(s0, before));
      RunLast(s0, ops);
      var more := StepOnRoute(Run(s0, before), ops[|ops| - 1], Routes(s0, before));
    }
  }

  lemma RunLast(s: State, ops: seq<Op>)
    requires s.Shaped() && AllOk(ops)
    ensures ops == [] ==> Run(s, ops) == s
    ensures ops != [] ==> AllOk(ops[..|ops| - 1]) && OpOk(ops[|ops| - 1]) && Run(s, ops) == Step(Run(s, ops[..|ops| - 1]), ops[|ops| - 1])
  {
    hide Step;
  }

  lemma InitOnRoute(links: nat, depth: nat)
    requires 0 < links
    ensures Init(links, depth).Shaped() && AllOk([]) && Run(Init(links, depth), []) == Init(links, depth)
    ensures OnRoute(Init(links, depth), [])
  {
  }
}
