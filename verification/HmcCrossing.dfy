// Nothing leaves a queue behind the crossbar before the clock at which it crossed plus
// its flits.
module HmcCrossing {
  import opened Basics
  import opened HmcSpec
  import opened HmcConservation
  import opened HmcTheorems
  import opened HmcRouting

  ghost predicate Held<T>(qs: seq<seq<T>>, x: T) { exists i :: 0 <= i < |qs| && x in qs[i] }

  lemma HeldAt<T>(qs: seq<seq<T>>, i: nat, x: T)
    requires i < |qs| && x in qs[i]
    ensures Held(qs, x)
  {
  }

  // One queue changes: what else is held stays.
  lemma HeldSet<T>(qs: seq<seq<T>>, i: nat, q: seq<T>, x: T)
    requires i < |qs|
    ensures Held(qs[i := q], x) ==> x in q || Held(qs, x)
    ensures Held(qs, x) ==> x in qs[i] || Held(qs[i := q], x)
    ensures x in q ==> Held(qs[i := q], x)
  {
    var qs' := qs[i := q];
    if Held(qs', x) && x !in q {
      var j :| 0 <= j < |qs'| && x in qs'[j];
      assert qs[j] == qs'[j];
    }
    if Held(qs, x) && x !in qs[i] {
      var j :| 0 <= j < |qs| && x in qs[j];
      assert qs'[j] == qs[j];
    }
    if x in q {
      assert qs'[i] == q;
    }
  }

  // ------------------------------------------------------------------ quad queues

  // What enters at a clock is due its flits later, and what leaves was due.
  predicate OnTime(clk: nat, flits: nat, exit: nat, before: bool, after: bool) {
    && (after && !before ==> exit == clk + flits)
    && (before && !after ==> exit <= clk)
  }

  lemma ToVaultHeld(s: State, i: nat, accept: bool, r: Req)
    requires s.Shaped() && i < Quads
    ensures var s' := ToVault(s, i, accept);
            && s'.logicClk == s.logicClk && (Held(s'.quadReq, r) ==> Held(s.quadReq, r))
            && (Held(s.quadReq, r) && !Held(s'.quadReq, r) ==> r.exit <= s.logicClk)
  {
    if s.quadReq[i] != [] {
      HeldSet(s.quadReq, i, s.quadReq[i][1..], r);
      if r in s.quadReq[i][1..] {
        HeldAt(s.quadReq, i, r);
      }
      assert r in s.quadReq[i] ==> r == s.quadReq[i][0] || r in s.quadReq[i][1..];
    }
    hide Held;
  }

  lemma {:induction false} ToVaultsHeld(s: State, n: nat, accept: seq<bool>, r: Req)
    requires s.Shaped() && n <= Quads == |accept|
    ensures var s' := ToVaults(s, n, accept);
            && s'.logicClk == s.logicClk && (Held(s'.quadReq, r) ==> Held(s.quadReq, r))
            && (Held(s.quadReq, r) && !Held(s'.quadReq, r) ==> r.exit <= s.logicClk)
  {
    hide Held, ToVault;
    if n > 0 {
      ToVaultsHeld(s, n - 1, accept, r);
      ToVaultHeld(ToVaults(s, n - 1, accept), n - 1, accept[n - 1], r);
    }
  }

  lemma ToQuadHeld(s: State, l: nat, r: Req)
    requires s.Shaped() && l < s.Links()
    ensures var s' := ToQuad(s, l);
            && s'.logicClk == s.logicClk && (Held(s.quadReq, r) ==> Held(s'.quadReq, r))
            && (Held(s'.quadReq, r) && !Held(s.quadReq, r) ==> r.exit == s.logicClk + r.flits)
  {
    if s.linkReq[l] != [] && s.linkReq[l][0].quad < Quads {
      var x := s.linkReq[l][0];
      var y := x.(exit := s.logicClk + x.flits);
      HeldSet(s.quadReq, x.quad, s.quadReq[x.quad] + [y], r);
      if r in s.quadReq[x.quad] {
        HeldAt(s.quadReq, x.quad, r);
      }
    }
    hide Held;
  }

  lemma {:induction false} ToQuadsHeld(s: State, order: seq<nat>, r: Req)
    requires s.Shaped() && forall i :: 0 <= i < |order| ==> order[i] < s.Links()
    ensures var s' := ToQuads(s, order);
            && s'.logicClk == s.logicClk && (Held(s.quadReq, r) ==> Held(s'.quadReq, r))
            && (Held(s'.quadReq, r) && !Held(s.quadReq, r) ==> r.exit == s.logicClk + r.flits)
    decreases |order|
  {
    hide Held, ToQuad;
    if order != [] {
      ToQuadHeld(s, order[0], r);
      ToQuadShaped(s, order[0]);
      ToQuadsHeld(ToQuad(s, order[0]), order[1..], r);
    }
  }

  lemma RequestsHeld(s: State, accept: seq<bool>, r: Req)
    requires s.Shaped() && |accept| == Quads
    ensures var s' := DrainRequests(s, accept);
            s'.logicClk == s.logicClk && OnTime(s.logicClk, r.flits, r.exit, Held(s.quadReq, r), Held(s'.quadReq, r))
            && s'.linkResp == s.linkResp
  {
    hide Held, ToVaults, ToQuads, BuildAgeQueue;
    ToVaultsHeld(s, Quads, accept, r);
    var s1 := ToVaults(s, Quads, accept);
    var s2 := s1.(quadBusy := Cool(s1.quadBusy));
    OrderInRange(s2.linkAge, s2.logicClk);
    ToQuadsHeld(s2, BuildAgeQueue(s2.linkAge, s2.logicClk), r);
    RequestsKeepLinks(s, accept);
  }

  lemma {:induction false} VaultsKeepLinks(s: State, n: nat, accept: seq<bool>)
    requires s.Shaped() && n <= Quads == |accept|
    ensures ToVaults(s, n, accept).linkResp == s.linkResp
  {
    if n > 0 {
      VaultsKeepLinks(s, n - 1, accept);
    }
  }

  lemma {:induction false} QuadsKeepLinks(s: State, order: seq<nat>)
    requires s.Shaped() && forall i :: 0 <= i < |order| ==> order[i] < s.Links()
    ensures ToQuads(s, order).linkResp == s.linkResp
    decreases |order|
  {
    if order != [] {
      ToQuadShaped(s, order[0]);
      QuadsKeepLinks(ToQuad(s, order[0]), order[1..]);
    }
  }

  lemma RequestsKeepLinks(s: State, accept: seq<bool>)
    requires s.Shaped() && |accept| == Quads
    ensures DrainRequests(s, accept).linkResp == s.linkResp
  {
    hide ToVaults, ToQuads, BuildAgeQueue;
    VaultsKeepLinks(s, Quads, accept);
    var s1 := ToVaults(s, Quads, accept);
    var s2 := s1.(quadBusy := Cool(s1.quadBusy));
    OrderInRange(s2.linkAge, s2.logicClk);
    QuadsKeepLinks(s2, BuildAgeQueue(s2.linkAge, s2.logicClk));
  }

  // ------------------------------------------------------------------ link queues

  lemma DeliverHeld(s: State, l: nat, r: Resp)
    requires s.Shaped() && l < s.Links()
    ensures var s' := Deliver(s, l);
            && s'.logicClk == s.logicClk && (Held(s'.linkResp, r) ==> Held(s.linkResp, r)) && s'.quadReq == s.quadReq
            && (Held(s.linkResp, r) && !Held(s'.linkResp, r) ==> r.exit <= s.logicClk)
  {
    if s.linkResp[l] != [] {
      HeldSet(s.linkResp, l, s.linkResp[l][1..], r);
      if r in s.linkResp[l][1..] {
        HeldAt(s.linkResp, l, r);
      }
      assert r in s.linkResp[l] ==> r == s.linkResp[l][0] || r in s.linkResp[l][1..];
    }
    hide Held;
  }

  lemma {:induction false} DeliverAllHeld(s: State, n: nat, r: Resp)
    requires s.Shaped() && n <= s.Links()
    ensures var s' := DeliverAll(s, n);
            && s'.logicClk == s.logicClk && (Held(s'.linkResp, r) ==> Held(s.linkResp, r)) && s'.quadReq == s.quadReq
            && (Held(s.linkResp, r) && !Held(s'.linkResp, r) ==> r.exit <= s.logicClk)
  {
    hide Held, Deliver;
    if n > 0 {
      DeliverAllHeld(s, n - 1, r);
      DeliverHeld(DeliverAll(s, n - 1), n - 1, r);
    }
  }

  lemma ToLinkHeld(s: State, q: nat, r: Resp)
    requires s.Shaped() && q < Quads
    ensures var s' := ToLink(s, q);
            && s'.logicClk == s.logicClk && (Held(s.linkResp, r) ==> Held(s'.linkResp, r)) && s'.quadReq == s.quadReq
            && (Held(s'.linkResp, r) && !Held(s.linkResp, r) ==> r.exit == s.logicClk + r.flits)
  {
    if s.quadResp[q] != [] && s.quadResp[q][0].link < s.Links() {
      var x := s.quadResp[q][0];
      var y := x.(exit := s.logicClk + x.flits);
      HeldSet(s.linkResp, x.link, s.linkResp[x.link] + [y], r);
      if r in s.linkResp[x.link] {
        HeldAt(s.linkResp, x.link, r);
      }
    }
    hide Held;
  }

  lemma {:induction false} ToLinksHeld(s: State, order: seq<nat>, r: Resp)
    requires s.Shaped() && forall i :: 0 <= i < |order| ==> order[i] < Quads
    ensures var s' := ToLinks(s, order);
            && s'.logicClk == s.logicClk && (Held(s.linkResp, r) ==> Held(s'.linkResp, r)) && s'.quadReq == s.quadReq
            && (Held(s'.linkResp, r) && !Held(s.linkResp, r) ==> r.exit == s.logicClk + r.flits)
    decreases |order|
  {
    hide Held, ToLink;
    if order != [] {
      ToLinkHeld(s, order[0], r);
      ToLinkStages(s, order[0]);
      ToLinksHeld(ToLink(s, order[0]), order[1..], r);
    }
  }

  lemma ResponsesHeld(s: State, r: Resp)
    requires s.Shaped()
    ensures var s' := DrainResponses(s);
            s'.logicClk == s.logicClk && OnTime(s.logicClk, r.flits, r.exit, Held(s.linkResp, r), Held(s'.linkResp, r))
            && s'.quadReq == s.quadReq
  {
    hide Held, DeliverAll, ToLinks, BuildAgeQueue;
    DeliverAllHeld(s, s.Links(), r);
    var s1 := DeliverAll(s, s.Links());
    var s2 := s1.(linkBusy := Cool(s1.linkBusy));
    OrderInRange(s2.quadAge, s2.logicClk);
    ToLinksHeld(s2, BuildAgeQueue(s2.quadAge, s2.logicClk), r);
  }

  // ------------------------------------------------------------------ every step

  lemma InsertKeeps(s: State, addr: nat, quad: nat, flits: nat, respFlits: nat)
    requires s.Shaped()
    ensures var s' := InsertHMCReq(s, addr, quad, flits, respFlits).0; s'.quadReq == s.quadReq && s'.linkResp == s.linkResp
  {
    var k := InsertLands(s, addr, quad, flits, respFlits);
    NotInserted(s, addr, quad, flits, respFlits);
    hide InsertHMCReq;
  }

  lemma CallbackKeeps(s: State, v: nat, pick: nat)
    requires s.Shaped() && v < |s.vault|
    ensures var s' := VaultCallback(s, v, pick); s'.quadReq == s.quadReq && s'.linkResp == s.linkResp
  {
    hide Finds;
  }

  lemma StepOnTime(s: State, op: Op, x: Req, y: Resp)
    requires s.Shaped() && OpOk(op)
    ensures var s' := Step(s, op);
            && OnTime(s.logicClk, x.flits, x.exit, Held(s.quadReq, x), Held(s'.quadReq, x))
            && OnTime(s.logicClk, y.flits, y.exit, Held(s.linkResp, y), Held(s'.linkResp, y))
  {
    hide Held, InsertHMCReq, DrainRequests, DrainResponses, VaultCallback;
    if !s.failed {
      match op {
        case OpInsert(addr, quad, flits, respFlits) => InsertKeeps(s, addr, quad, flits, respFlits);
        case OpRequests(accept) => RequestsHeld(s, accept, x);
        case OpResponses => ResponsesHeld(s, y);
        case OpVault(v, pick) =>
          if v < |s.vault| {
            CallbackKeeps(s, v, pick);
          }
        case OpLogicClock =>
      }
    }
  }

  // ------------------------------------------------------------------ every run

  // The step at which a queued request crossed, and the clock of that step.
  lemma {:induction false} CrossedAt(links: nat, depth: nat, ops: seq<Op>, x: Req) returns (k: nat)
    requires 0 < links && AllOk(ops) && Init(links, depth).Shaped() && Held(Run(Init(links, depth), ops).quadReq, x)
    ensures k < |ops| && AllOk(ops[..k]) && AllOk(ops[..k + 1])
    ensures !Held(Run(Init(links, depth), ops[..k]).quadReq, x) && Held(Run(Init(links, depth), ops[..k + 1]).quadReq, x)
    ensures x.exit == Run(Init(links, depth), ops[..k]).logicClk + x.flits
  {
    hide Held, Step, Run, Init, OpOk;
    var s0 := Init(links, depth);
    if ops == [] {
      NothingHeld(links, depth, x);
      RunLast(s0, ops);
    } else {
      var n := |ops| - 1;
      RunLast(s0, ops);
      var y: Resp := Resp(0, 0, 0, 0, 0, 0);
      StepOnTime(Run(s0, ops[..n]), ops[n], x, y);
      if Held(Run(s0, ops[..n]).quadReq, x) {
        k := CrossedAt(links, depth, ops[..n], x);
        assert ops[..n][..k] == ops[..k] && ops[..n][..k + 1] == ops[..k + 1];
      } else {
        k := n;
        assert ops[..n + 1] == ops;
      }
    }
  }

  lemma NothingHeld(links: nat, depth: nat, x: Req)
    requires 0 < links
    ensures Init(links, depth).Shaped() && AllOk([]) && !Held(Init(links, depth).quadReq, x)
  {
  }

  // A request leaves its quad's queue for the vault no sooner than the clock at which
  // it crossed plus its flits.
  lemma QuadLeavesLate(links: nat, depth: nat, ops: seq<Op>, op: Op, x: Req) returns (k: nat)
    requires 0 < links && AllOk(ops) && OpOk(op) && Init(links, depth).Shaped()
    requires var s := Run(Init(links, depth), ops); Held(s.quadReq, x) && !Held(Step(s, op).quadReq, x)
    ensures k < |ops| && AllOk(ops[..k]) && AllOk(ops[..k + 1])
    ensures !Held(Run(Init(links, depth), ops[..k]).quadReq, x) && Held(Run(Init(links, depth), ops[..k + 1]).quadReq, x)
    ensures Run(Init(links, depth), ops[..k]).logicClk + x.flits <= Run(Init(links, depth), ops).logicClk
  {
    hide Held, Step, Run, Init, OpOk;
    k := CrossedAt(links, depth, ops, x);
    StepOnTime(Run(Init(links, depth), ops), op, x, Resp(0, 0, 0, 0, 0, 0));
  }

  lemma {:induction false} ReturnedAt(links: nat, depth: nat, ops: seq<Op>, y: Resp) returns (k: nat)
    requires 0 < links && AllOk(ops) && Init(links, depth).Shaped() && Held(Run(Init(links, depth), ops).linkResp, y)
    ensures k < |ops| && AllOk(ops[..k]) && AllOk(ops[..k + 1])
    ensures !Held(Run(Init(links, depth), ops[..k]).linkResp, y) && Held(Run(Init(links, depth), ops[..k + 1]).linkResp, y)
    ensures y.exit == Run(Init(links, depth), ops[..k]).logicClk + y.flits
  {
    hide Held, Step, Run, Init, OpOk;
    var s0 := Init(links, depth);
    if ops == [] {
      NothingReturns(links, depth, y);
      RunLast(s0, ops);
    } else {
      var n := |ops| - 1;
      RunLast(s0, ops);
      var x: Req := Req(0, 0, 0, 0, 0, 0);
      StepOnTime(Run(s0, ops[..n]), ops[n], x, y);
      if Held(Run(s0, ops[..n]).linkResp, y) {
        k := ReturnedAt(links, depth, ops[..n], y);
        assert ops[..n][..k] == ops[..k] && ops[..n][..k + 1] == ops[..k + 1];
      } else {
        k := n;
        assert ops[..n + 1] == ops;
      }
    }
  }

  lemma NothingReturns(links: nat, depth: nat, y: Resp)
    requires 0 < links
    ensures Init(links, depth).Shaped() && AllOk([]) && !Held(Init(links, depth).linkResp, y)
  {
  }

  // A response leaves its link's queue for the caller no sooner than the clock at which
  // it crossed plus its flits.
  lemma LinkLeavesLate(links: nat, depth: nat, ops: seq<Op>, op: Op, y: Resp) returns (k: nat)
    requires 0 < links && AllOk(ops) && OpOk(op) && Init(links, depth).Shaped()
    requires var s := Run(Init(links, depth), ops); Held(s.linkResp, y) && !Held(Step(s, op).linkResp, y)
    ensures k < |ops| && AllOk(ops[..k]) && AllOk(ops[..k + 1])
    ensures !Held(Run(Init(links, depth), ops[..k]).linkResp, y) && Held(Run(Init(links, depth), ops[..k + 1]).linkResp, y)
    ensures Run(Init(links, depth), ops[..k]).logicClk + y.flits <= Run(Init(links, depth), ops).logicClk
  {
    hide Held, Step, Run, Init, OpOk;
    k := ReturnedAt(links, depth, ops, y);
    StepOnTime(Run(Init(links, depth), ops), op, Req(0, 0, 0, 0, 0, 0), y);
  }
}
