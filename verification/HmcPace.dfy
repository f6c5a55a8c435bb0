// The crossbar lets one request into a quad, and one response into a link, at a time:
// two of its flits pass in each round, and the next one comes in only when they all
// have. What came in and when is read off the runs.
module HmcPace {
  import opened Basics
  import opened HmcSpec
  import opened HmcConservation
  import opened HmcTheorems
  import opened HmcRouting
  import opened HmcCrossing

  // ------------------------------------------------------------------ one destination

  // x has come into the queue.
  predicate Came<T(==)>(before: seq<T>, after: seq<T>, x: T) { x in after && x !in before }

  // Two flits have passed.
  function Passed(busy: int): int { if busy > 0 then busy - 2 else busy }

  // What comes finds its destination free, keeps it busy for its flits, and a busy one
  // lets nothing in.
  ghost predicate Paced<T(!new)>(flits: T -> nat, busy: int, busy': int, before: seq<T>, after: seq<T>) {
    && busy <= busy' && before <= after
    && (busy > 0 ==> busy' == busy && after == before)
    && (forall x :: Came(before, after, x) && flits(x) > 0 ==> busy' == flits(x))
    && (forall x, y :: Came(before, after, x) && Came(before, after, y) && flits(x) > 0 && flits(y) > 0 ==> y == x)
  }

  lemma NothingPaced<T(!new)>(flits: T -> nat, busy: int, q: seq<T>)
    ensures Paced(flits, busy, busy, q, q)
  {
  }

  lemma OnePaced<T(!new)>(flits: T -> nat, busy: int, q: seq<T>, x: T)
    requires busy <= 0
    ensures Paced(flits, busy, flits(x), q, q + [x])
  {
  }

  lemma PacedThen<T(!new)>(flits: T -> nat, b: int, b1: int, b2: int, q: seq<T>, q1: seq<T>, q2: seq<T>)
    requires Paced(flits, b, b1, q, q1) && Paced(flits, b1, b2, q1, q2)
    ensures Paced(flits, b, b2, q, q2)
  {
    forall x | Came(q, q2, x)
      ensures Came(q, q1, x) || Came(q1, q2, x)
    {
    }
  }

  // ------------------------------------------------------------------ the quads

  const ReqFlits: Req -> nat := (r: Req) => r.flits
  const RespFlits: Resp -> nat := (r: Resp) => r.flits

  ghost predicate QuadPaced(s: State, s': State, q: nat)
    requires s.Shaped() && s'.Shaped() && q < Quads
  {
    Paced(ReqFlits, s.quadBusy[q], s'.quadBusy[q], s.quadReq[q], s'.quadReq[q])
  }

  lemma ToQuadPaced(s: State, l: nat, q: nat)
    requires s.Shaped() && l < s.Links() && q < Quads
    ensures ToQuad(s, l).Shaped() && QuadPaced(s, ToQuad(s, l), q)
  {
    hide Paced;
    NothingPaced(ReqFlits, s.quadBusy[q], s.quadReq[q]);
    if s.linkReq[l] != [] && s.quadBusy[q] <= 0 {
      var x := s.linkReq[l][0];
      OnePaced(ReqFlits, s.quadBusy[q], s.quadReq[q], x.(exit := s.logicClk + x.flits));
    }
  }

  lemma {:induction false} ToQuadsPaced(s: State, order: seq<nat>, q: nat)
    requires s.Shaped() && q < Quads && forall i :: 0 <= i < |order| ==> order[i] < s.Links()
    ensures QuadPaced(s, ToQuads(s, order), q)
    decreases |order|
  {
    hide ToQuad, Paced;
    if order == [] {
      NothingPaced(ReqFlits, s.quadBusy[q], s.quadReq[q]);
    } else {
      var s1, s' := ToQuad(s, order[0]), ToQuads(s, order);
      ToQuadPaced(s, order[0], q);
      ToQuadShaped(s, order[0]);
      ToQuadsPaced(s1, order[1..], q);
      PacedThen(ReqFlits, s.quadBusy[q], s1.quadBusy[q], s'.quadBusy[q], s.quadReq[q], s1.quadReq[q], s'.quadReq[q]);
    }
  }

  lemma {:induction false} VaultsOnlyTake(s: State, n: nat, accept: seq<bool>, q: nat)
    requires s.Shaped() && n <= Quads == |accept| && q < Quads
    ensures var s' := ToVaults(s, n, accept);
            s'.quadBusy == s.quadBusy && forall x :: x in s'.quadReq[q] ==> x in s.quadReq[q]
  {
    if n > 0 {
      VaultsOnlyTake(s, n - 1, accept, q);
    }
  }

  // What one call makes of a destination: a round lets two flits pass and then lets
  // something in if none are left; any other call lets nothing in.
  ghost predicate Round<T(!new)>(flits: T -> nat, round: bool, busy: int, busy': int, before: seq<T>, after: seq<T>) {
    && (if round then Passed(busy) else busy) <= busy'
    && (forall x :: Came(before, after, x) ==> round && Passed(busy) <= 0)
    && (forall x :: Came(before, after, x) && flits(x) > 0 ==> busy' == flits(x))
    && (forall x, y :: Came(before, after, x) && Came(before, after, y) && flits(x) > 0 && flits(y) > 0 ==> y == x)
  }

  lemma RoundOf<T(!new)>(flits: T -> nat, busy: int, busy': int, before: seq<T>, mid: seq<T>, after: seq<T>)
    requires Paced(flits, Passed(busy), busy', mid, after) && forall x :: x in mid ==> x in before
    ensures Round(flits, true, busy, busy', before, after)
  {
    forall x | Came(before, after, x)
      ensures Came(mid, after, x)
    {
    }
  }

  lemma NoRound<T(!new)>(flits: T -> nat, busy: int, q: seq<T>)
    ensures Round(flits, false, busy, busy, q, q)
  {
  }

  lemma RequestsRound(s: State, accept: seq<bool>, q: nat)
    requires s.Shaped() && |accept| == Quads && q < Quads
    ensures var s' := DrainRequests(s, accept);
            && s'.Shaped() && Round(ReqFlits, true, s.quadBusy[q], s'.quadBusy[q], s.quadReq[q], s'.quadReq[q])
            && s'.linkBusy == s.linkBusy
  {
    hide ToVaults, ToQuads, BuildAgeQueue, Paced, Round;
    VaultsOnlyTake(s, Quads, accept, q);
    var s1 := ToVaults(s, Quads, accept);
    var s2 := s1.(quadBusy := Cool(s1.quadBusy));
    OrderInRange(s2.linkAge, s2.logicClk);
    var order := BuildAgeQueue(s2.linkAge, s2.logicClk);
    ToQuadsPaced(s2, order, q);
    var s' := ToQuads(s2, order);
    RoundOf(ReqFlits, s.quadBusy[q], s'.quadBusy[q], s.quadReq[q], s2.quadReq[q], s'.quadReq[q]);
    VaultsKeepBusy(s, Quads, accept);
    QuadsKeepBusy(s2, order);
  }

  lemma {:induction false} VaultsKeepBusy(s: State, n: nat, accept: seq<bool>)
    requires s.Shaped() && n <= Quads == |accept|
    ensures ToVaults(s, n, accept).linkBusy == s.linkBusy
  {
    if n > 0 {
      VaultsKeepBusy(s, n - 1, accept);
    }
  }

  lemma {:induction false} QuadsKeepBusy(s: State, order: seq<nat>)
    requires s.Shaped() && forall i :: 0 <= i < |order| ==> order[i] < s.Links()
    ensures ToQuads(s, order).linkBusy == s.linkBusy
    decreases |order|
  {
    if order != [] {
      ToQuadShaped(s, order[0]);
      QuadsKeepBusy(ToQuad(s, order[0]), order[1..]);
    }
  }

  // ------------------------------------------------------------------ the links

  ghost predicate LinkPaced(s: State, s': State, l: nat)
    requires s.Shaped() && s'.Shaped() && l < s.Links() == s'.Links()
  {
    Paced(RespFlits, s.linkBusy[l], s'.linkBusy[l], s.linkResp[l], s'.linkResp[l])
  }

  lemma ToLinkPaced(s: State, q: nat, l: nat)
    requires s.Shaped() && q < Quads && l < s.Links()
    ensures ToLink(s, q).Shaped() && ToLink(s, q).Links() == s.Links() && LinkPaced(s, ToLink(s, q), l)
  {
    hide Paced;
    NothingPaced(RespFlits, s.linkBusy[l], s.linkResp[l]);
    if s.quadResp[q] != [] && s.linkBusy[l] <= 0 {
      var x := s.quadResp[q][0];
      OnePaced(RespFlits, s.linkBusy[l], s.linkResp[l], x.(exit := s.logicClk + x.flits));
    }
  }

  lemma {:induction false} ToLinksPaced(s: State, order: seq<nat>, l: nat)
    requires s.Shaped() && l < s.Links() && forall i :: 0 <= i < |order| ==> order[i] < Quads
    ensures LinkPaced(s, ToLinks(s, order), l) && ToLinks(s, order).quadBusy == s.quadBusy
    decreases |order|
  {
    hide ToLink, Paced;
    if order == [] {
      NothingPaced(RespFlits, s.linkBusy[l], s.linkResp[l]);
    } else {
      var s1, s' := ToLink(s, order[0]), ToLinks(s, order);
      ToLinkPaced(s, order[0], l);
      ToLinkQuads(s, order[0]);
      ToLinksPaced(s1, order[1..], l);
      PacedThen(RespFlits, s.linkBusy[l], s1.linkBusy[l], s'.linkBusy[l], s.linkResp[l], s1.linkResp[l], s'.linkResp[l]);
    }
  }

  lemma ToLinkQuads(s: State, q: nat)
    requires s.Shaped() && q < Quads
    ensures ToLink(s, q).quadBusy == s.quadBusy
  {
  }

  lemma {:induction false} DeliverOnlyTakes(s: State, n: nat, l: nat)
    requires s.Shaped() && n <= s.Links() && l < s.Links()
    ensures var s' := DeliverAll(s, n);
            && s'.linkBusy == s.linkBusy && s'.quadBusy == s.quadBusy
            && forall x :: x in s'.linkResp[l] ==> x in s.linkResp[l]
  {
    if n > 0 {
      DeliverOnlyTakes(s, n - 1, l);
    }
  }

  lemma ResponsesRound(s: State, l: nat)
    requires s.Shaped() && l < s.Links()
    ensures var s' := DrainResponses(s);
            && s'.Shaped() && s'.Links() == s.Links()
            && Round(RespFlits, true, s.linkBusy[l], s'.linkBusy[l], s.linkResp[l], s'.linkResp[l])
            && s'.quadBusy == s.quadBusy
  {
    hide DeliverAll, ToLinks, BuildAgeQueue, Paced, Round;
    DeliverOnlyTakes(s, s.Links(), l);
    var s1 := DeliverAll(s, s.Links());
    var s2 := s1.(linkBusy := Cool(s1.linkBusy));
    OrderInRange(s2.quadAge, s2.logicClk);
    var order := BuildAgeQueue(s2.quadAge, s2.logicClk);
    ToLinksPaced(s2, order, l);
    var s' := ToLinks(s2, order);
    RoundOf(RespFlits, s.linkBusy[l], s'.linkBusy[l], s.linkResp[l], s2.linkResp[l], s'.linkResp[l]);
  }

  // ------------------------------------------------------------------ every step

  lemma InsertKeepsBusy(s: State, req: Req, n: nat)
    requires s.Shaped()
    ensures var s' := TryLinks(s, req, n).0;
            s'.quadBusy == s.quadBusy && s'.linkBusy == s.linkBusy && s'.quadReq == s.quadReq && s'.linkResp == s.linkResp
            && s'.Links() == s.Links()
    decreases n
  {
    if n > 0 && |s.linkReq[s.nextLink]| >= s.depth {
      InsertKeepsBusy(IterateNextLink(s), req, n - 1);
    }
  }

  lemma CallbackKeepsBusy(s: State, v: nat, pick: nat)
    requires s.Shaped() && v < |s.vault|
    ensures var s' := VaultCallback(s, v, pick);
            s'.quadBusy == s.quadBusy && s'.linkBusy == s.linkBusy && s'.quadReq == s.quadReq && s'.linkResp == s.linkResp
            && s'.Links() == s.Links()
  {
    hide Finds, Remove;
  }

  lemma StepQuadRound(s: State, op: Op, q: nat)
    requires s.Shaped() && OpOk(op) && q < Quads
    ensures var s' := Step(s, op);
            s'.Shaped() && (s.failed || Round(ReqFlits, op.OpRequests?, s.quadBusy[q], s'.quadBusy[q], s.quadReq[q], s'.quadReq[q]))
  {
    StepShaped(s, op);
    hide Round, DrainRequests, DrainResponses, VaultCallback, TryLinks;
    NoRound(ReqFlits, s.quadBusy[q], s.quadReq[q]);
    match op {
      case OpInsert(addr, quad, flits, respFlits) => InsertKeepsBusy(s, Req(s.inserted, addr, quad, flits, respFlits, 0), s.Links());
      case OpRequests(accept) => RequestsRound(s, accept, q);
      case OpResponses =>
        ResponsesRound(s, 0);
        ResponsesHeld(s, Resp(0, 0, 0, 0, 0, 0));
      case OpVault(v, pick) =>
        if v < |s.vault| {
          CallbackKeepsBusy(s, v, pick);
        }
      case OpLogicClock =>
    }
  }

  lemma StepLinkRound(s: State, op: Op, l: nat)
    requires s.Shaped() && OpOk(op) && l < s.Links()
    ensures var s' := Step(s, op);
            && s'.Shaped() && s'.Links() == s.Links()
            && (s.failed || Round(RespFlits, op.OpResponses?, s.linkBusy[l], s'.linkBusy[l], s.linkResp[l], s'.linkResp[l]))
  {
    StepShaped(s, op);
    hide Round, DrainRequests, DrainResponses, VaultCallback, TryLinks;
    NoRound(RespFlits, s.linkBusy[l], s.linkResp[l]);
    match op {
      case OpInsert(addr, quad, flits, respFlits) => InsertKeepsBusy(s, Req(s.inserted, addr, quad, flits, respFlits, 0), s.Links());
      case OpRequests(accept) =>
        RequestsRound(s, accept, 0);
        RequestsHeld(s, accept, Req(0, 0, 0, 0, 0, 0));
      case OpResponses => ResponsesRound(s, l);
      case OpVault(v, pick) =>
        if v < |s.vault| {
          CallbackKeepsBusy(s, v, pick);
        }
      case OpLogicClock =>
    }
  }

  // ------------------------------------------------------------------ every run

  // The rounds of the request side, and of the response side, among some calls.
  function Rounds(ops: seq<Op>): nat {
    if ops == [] then 0 else Rounds(ops[..|ops| - 1]) + if ops[|ops| - 1].OpRequests? then 1 else 0
  }

  function RespRounds(ops: seq<Op>): nat {
    if ops == [] then 0 else RespRounds(ops[..|ops| - 1]) + if ops[|ops| - 1].OpResponses? then 1 else 0
  }

  // At the k-th call of the run x came into the queue of quad q, or of link l.
  ghost predicate CameToQuad(s0: State, ops: seq<Op>, k: nat, q: nat, x: Req)
    requires s0.Shaped() && AllOk(ops) && k < |ops| && q < Quads
  {
    Came(Run(s0, ops[..k]).quadReq[q], Run(s0, ops[..k + 1]).quadReq[q], x)
  }

  ghost predicate CameToLink(s0: State, ops: seq<Op>, k: nat, l: nat, x: Resp)
    requires s0.Shaped() && AllOk(ops) && k < |ops|
  {
    var s, s' := Run(s0, ops[..k]), Run(s0, ops[..k + 1]);
    l < |s.linkResp| == |s'.linkResp| && Came(s.linkResp[l], s'.linkResp[l], x)
  }

  lemma RunNext(s0: State, ops: seq<Op>, k: nat)
    requires s0.Shaped() && AllOk(ops) && k < |ops|
    ensures AllOk(ops[..k]) && AllOk(ops[..k + 1]) && OpOk(ops[k])
    ensures Run(s0, ops[..k + 1]) == Step(Run(s0, ops[..k]), ops[k])
  {
    RunLast(s0, ops[..k + 1]);
    assert ops[..k + 1][..k] == ops[..k];
  }

  lemma FailedStays(s: State, op: Op)
    requires s.Shaped() && OpOk(op) && s.failed
    ensures Step(s, op) == s
  {
  }

  // What a step makes of a busy count.
  lemma RoundBusy<T(!new)>(flits: T -> nat, round: bool, busy: int, busy': int, before: seq<T>, after: seq<T>)
    requires Round(flits, round, busy, busy', before, after)
    ensures busy - (if round then 2 else 0) <= busy'
  {
  }

  lemma RoundsMore(ops: seq<Op>, i: nat, k: nat)
    requires i <= k < |ops|
    ensures Rounds(ops[i..k + 1]) == Rounds(ops[i..k]) + if ops[k].OpRequests? then 1 else 0
    ensures RespRounds(ops[i..k + 1]) == RespRounds(ops[i..k]) + if ops[k].OpResponses? then 1 else 0
    ensures Rounds(ops[i..i]) == 0 && RespRounds(ops[i..i]) == 0
  {
    assert ops[i..k + 1][..k - i] == ops[i..k];
  }

  lemma {:induction false} QuadStaysBusy(s0: State, ops: seq<Op>, i: nat, k: nat, q: nat)
    requires s0.Shaped() && AllOk(ops) && i <= k < |ops| && q < Quads && AllOk(ops[..i]) && AllOk(ops[..k])
    ensures Run(s0, ops[..i]).quadBusy[q] - 2 * Rounds(ops[i..k]) <= Run(s0, ops[..k]).quadBusy[q]
    decreases k
  {
    hide Run, Step, Round, Rounds;
    RoundsMore(ops, i, i);
    if i < k {
      RunNext(s0, ops, k - 1);
      QuadStaysBusy(s0, ops, i, k - 1, q);
      RoundsMore(ops, i, k - 1);
      var s := Run(s0, ops[..k - 1]);
      QuadBusyStep(s, ops[k - 1], q);
    }
  }

  lemma QuadBusyStep(s: State, op: Op, q: nat)
    requires s.Shaped() && OpOk(op) && q < Quads
    ensures Step(s, op).Shaped() && s.quadBusy[q] - (if op.OpRequests? then 2 else 0) <= Step(s, op).quadBusy[q]
  {
    hide Step, Round;
    StepQuadRound(s, op, q);
    if s.failed {
      FailedStays(s, op);
    } else {
      RoundBusy(ReqFlits, op.OpRequests?, s.quadBusy[q], Step(s, op).quadBusy[q], s.quadReq[q], Step(s, op).quadReq[q]);
    }
  }

  lemma QuadCame(s: State, op: Op, q: nat, x: Req)
    requires s.Shaped() && OpOk(op) && q < Quads && Step(s, op).Shaped() && Came(s.quadReq[q], Step(s, op).quadReq[q], x)
    ensures op.OpRequests? && s.quadBusy[q] <= 2
    ensures x.flits > 0 ==> Step(s, op).quadBusy[q] == x.flits
    ensures forall y :: Came(s.quadReq[q], Step(s, op).quadReq[q], y) && x.flits > 0 && y.flits > 0 ==> y == x
  {
    hide Step;
    StepQuadRound(s, op, q);
    if s.failed {
      FailedStays(s, op);
    }
    assert ReqFlits(x) == x.flits && forall y: Req :: ReqFlits(y) == y.flits;
  }

  // On every run: of two requests that come into one quad the second comes when the
  // flits of the first have passed, two in each round; and of two with flits that come
  // at the same call both are one.
  lemma QuadPace(links: nat, depth: nat, ops: seq<Op>, i: nat, j: nat, q: nat, x: Req, y: Req)
    requires 0 < links && AllOk(ops) && Init(links, depth).Shaped() && i <= j < |ops| && q < Quads
    requires CameToQuad(Init(links, depth), ops, i, q, x) && CameToQuad(Init(links, depth), ops, j, q, y)
    ensures i < j ==> x.flits <= 2 * Rounds(ops[i + 1..j + 1])
    ensures i == j && x.flits > 0 && y.flits > 0 ==> x == y
  {
    hide Run, Step, Init, Came, Rounds;
    var s0 := Init(links, depth);
    RunNext(s0, ops, i);
    RunNext(s0, ops, j);
    QuadCame(Run(s0, ops[..i]), ops[i], q, x);
    QuadCame(Run(s0, ops[..j]), ops[j], q, y);
    if i < j {
      QuadStaysBusy(s0, ops, i + 1, j, q);
      RoundsMore(ops, i + 1, j);
    }
  }

  lemma {:induction false} LinksFixed(s0: State, ops: seq<Op>)
    requires s0.Shaped() && AllOk(ops)
    ensures Run(s0, ops).Links() == s0.Links()
  {
    hide Step;
    RunLast(s0, ops);
    if ops != [] {
      LinksFixed(s0, ops[..|ops| - 1]);
      StepLinkRound(Run(s0, ops[..|ops| - 1]), ops[|ops| - 1], 0);
    }
  }

  lemma LinkBusyStep(s: State, op: Op, l: nat)
    requires s.Shaped() && OpOk(op) && l < s.Links()
    ensures Step(s, op).Links() == s.Links() && Step(s, op).Shaped()
    ensures s.linkBusy[l] - (if op.OpResponses? then 2 else 0) <= Step(s, op).linkBusy[l]
  {
    hide Step, Round;
    StepLinkRound(s, op, l);
    if s.failed {
      FailedStays(s, op);
    } else {
      RoundBusy(RespFlits, op.OpResponses?, s.linkBusy[l], Step(s, op).linkBusy[l], s.linkResp[l], Step(s, op).linkResp[l]);
    }
  }

  lemma {:induction false} LinkStaysBusy(s0: State, ops: seq<Op>, i: nat, k: nat, l: nat)
    requires s0.Shaped() && AllOk(ops) && i <= k < |ops| && l < s0.Links() && AllOk(ops[..i]) && AllOk(ops[..k])
    ensures Run(s0, ops[..i]).Links() == Run(s0, ops[..k]).Links() == s0.Links()
    ensures Run(s0, ops[..i]).linkBusy[l] - 2 * RespRounds(ops[i..k]) <= Run(s0, ops[..k]).linkBusy[l]
    decreases k
  {
    hide Run, Step, Round, RespRounds;
    RoundsMore(ops, i, i);
    LinksFixed(s0, ops[..i]);
    LinksFixed(s0, ops[..k]);
    if i < k {
      RunNext(s0, ops, k - 1);
      LinkStaysBusy(s0, ops, i, k - 1, l);
      RoundsMore(ops, i, k - 1);
      LinkBusyStep(Run(s0, ops[..k - 1]), ops[k - 1], l);
    }
  }

  lemma LinkCame(s: State, op: Op, l: nat, x: Resp)
    requires s.Shaped() && OpOk(op) && l < s.Links() == |Step(s, op).linkResp| && Came(s.linkResp[l], Step(s, op).linkResp[l], x)
    ensures Step(s, op).Shaped() && op.OpResponses? && s.linkBusy[l] <= 2
    ensures x.flits > 0 ==> Step(s, op).linkBusy[l] == x.flits
    ensures forall y :: Came(s.linkResp[l], Step(s, op).linkResp[l], y) && x.flits > 0 && y.flits > 0 ==> y == x
  {
    hide Step;
    StepLinkRound(s, op, l);
    if s.failed {
      FailedStays(s, op);
    }
    assert RespFlits(x) == x.flits && forall y: Resp :: RespFlits(y) == y.flits;
  }

  // Likewise the responses that come into one link.
  lemma LinkPace(links: nat, depth: nat, ops: seq<Op>, i: nat, j: nat, l: nat, x: Resp, y: Resp)
    requires 0 < links && AllOk(ops) && Init(links, depth).Shaped() && i <= j < |ops| && l < Init(links, depth).Links()
    requires CameToLink(Init(links, depth), ops, i, l, x) && CameToLink(Init(links, depth), ops, j, l, y)
    ensures i < j ==> x.flits <= 2 * RespRounds(ops[i + 1..j + 1])
    ensures i == j && x.flits > 0 && y.flits > 0 ==> x == y
  {
    hide Run, Step, Init, Came, RespRounds;
    var s0 := Init(links, depth);
    RunNext(s0, ops, i);
    RunNext(s0, ops, j);
    LinksFixed(s0, ops[..i]);
    LinksFixed(s0, ops[..j]);
    LinkCame(Run(s0, ops[..i]), ops[i], l, x);
    LinkCame(Run(s0, ops[..j]), ops[j], l, y);
    if i < j {
      LinkStaysBusy(s0, ops, i + 1, j, l);
      RoundsMore(ops, i + 1, j);
    }
  }
}
