// The crossbar with its loops (dramsim3/src/hmc.cc), proved against HmcSpec.
module HmcClass {
  import opened Basics
  import opened HmcSpec
  import opened HmcConservation
  import opened HmcTheorems
  import opened HmcClock

  class Hmc {
    const depth: nat
    const perLogic: nat
    const perDram: nat
    var nextLink: nat
    var logicClk: nat
    var logicPs: nat
    var dramPs: nat
    var inserted: nat
    var linkReq: seq<seq<Req>>
    var quadReq: seq<seq<Req>>
    var vault: seq<Req>
    var lookup: seq<Resp>
    var quadResp: seq<seq<Resp>>
    var linkResp: seq<seq<Resp>>
    var delivered: seq<Resp>
    var linkBusy: seq<int>
    var quadBusy: seq<int>
    var linkAge: seq<nat>
    var quadAge: seq<nat>

    ghost function View(): State
      reads this
    {
      State(false, depth, nextLink, logicClk, inserted, linkReq, quadReq, vault, lookup, quadResp, linkResp, delivered,
            linkBusy, quadBusy, linkAge, quadAge)
    }

    ghost function Clocks(): Clocks
      reads this
    {
      HmcClock.Clocks(logicPs, dramPs, perLogic, perDram)
    }

    ghost predicate Valid()
      reads this
    {
      Inv(View()) && Counted(Clocks(), logicClk)
    }

    constructor (links: nat, depth: nat, perLogic: nat, perDram: nat)
      requires 0 < links && 0 < perLogic && 0 < perDram
      ensures View() == Init(links, depth) && Clocks() == HmcClock.Clocks(0, 0, perLogic, perDram) && Valid()
    {
      this.depth, this.perLogic, this.perDram := depth, perLogic, perDram;
      nextLink, logicClk, logicPs, dramPs, inserted := 0, 0, 0, 0, 0;
      linkReq, quadReq := seq(links, _ => []), seq(Quads, _ => []);
      vault, lookup, delivered := [], [], [];
      quadResp, linkResp := seq(Quads, _ => []), seq(links, _ => []);
      linkBusy, quadBusy := seq(links, _ => 0), seq(Quads, _ => 0);
      linkAge, quadAge := seq(links, _ => 0), seq(Quads, _ => 0);
      new;
      InitInv(links, depth);
    }

    // ------------------------------------------------------------ insertion

    method InsertReqToLink(req: Req, link: nat) returns (ok: bool)
      requires View().Shaped() && link < |linkReq|
      modifies `linkReq, `lookup, `linkAge, `inserted
      ensures ok <==> |old(linkReq)[link]| < depth
      ensures View() == if ok then HmcSpec.InsertReqToLink(old(View()), req, link) else old(View())
    {
      ok := |linkReq[link]| < depth;
      if ok {
        linkReq := linkReq[link := linkReq[link] + [req]];
        lookup := lookup + [RespFor(req, link)];
        linkAge := linkAge[link := 1];
        inserted := inserted + 1;
      }
    }

    method IterateNextLink()
      requires View().Shaped()
      modifies `nextLink
      ensures View() == HmcSpec.IterateNextLink(old(View()))
    {
      nextLink := (nextLink + 1) % |linkReq|;
    }

    method TryNextLink(req: Req, ghost n: nat) returns (ok: bool)
      requires View().Shaped() && 0 < n
      modifies `linkReq, `lookup, `linkAge, `inserted, `nextLink
      ensures View().Shaped() && |linkReq| == |old(linkReq)| && nextLink == (old(nextLink) + 1) % |linkReq|
      ensures TryLinks(old(View()), req, n) == if ok then (View(), true) else TryLinks(View(), req, n - 1)
    {
      TryOne(View(), req, n);
      hide HmcSpec.InsertReqToLink, HmcSpec.IterateNextLink, TryLinks;
      ok := InsertReqToLink(req, nextLink);
      IterateNextLink();
    }

    // Take a request on the first link with room, looking round once.
    method InsertHMCReq(addr: nat, quad: nat, flits: nat, respFlits: nat) returns (ok: bool)
      requires Inv(View()) && quad < Quads
      modifies `linkReq, `lookup, `linkAge, `inserted, `nextLink
      ensures Inv(View()) && View().Shaped() && (View(), ok) == HmcSpec.InsertHMCReq(old(View()), addr, quad, flits, respFlits)
      ensures ok <==> HasRoom(old(View()))
    {
      hide Inv, TryLinks, HasRoom, Turn, HmcSpec.InsertHMCReq;
      ghost var before := View();
      InvHas(before);
      var req := Req(inserted, addr, quad, flits, respFlits, 0);
      ghost var n := |linkReq|;
      SomeLink(before);
      ghost var target := TryLinks(before, req, n);
      InsertIsTry(before, addr, quad, flits, respFlits);
      InsertHMCReqInv(before, addr, quad, flits, respFlits);
      InsertedIffRoom(before, addr, quad, flits, respFlits);
      var start := nextLink;
      ok := TryNextLink(req, n);
      ghost var tried := 1;
      TurnNext(n, start, 0);
      while !ok && start != nextLink
        invariant View().Shaped() && |linkReq| == n && start < n
        invariant 1 <= tried <= n && nextLink == Turn(n, start, tried)
        invariant if ok then target == (View(), true) else target == TryLinks(View(), req, n - tried)
        decreases n - tried, !ok
      {
        TurnNext(n, start, tried);
        ok := TryNextLink(req, n - tried);
        tried := tried + 1;
      }
      TurnNext(n, start, tried);
      TryNone(View(), req);
    }

    // ---------------------------------------------------- arbitration order

    // The positions with a positive age, each placed before the first entry that its
    // age exceeds.
    method BuildAgeQueue(age: seq<nat>) returns (order: seq<nat>)
      requires 0 < |age|
      ensures order == HmcSpec.BuildAgeQueue(age, logicClk)
    {
      var start := logicClk % |age|;
      order := [];
      for i := 0 to |age|
        invariant order == AgeQueue(age, start, i)
      {
        var pos := (i + start) % |age|;
        if age[pos] > 0 {
          var at := 0;
          while at < |order| && age[pos] <= order[at]
            invariant at <= |order| && InsertAt(order, age[pos]) == at + InsertAt(order[at..], age[pos])
          {
            at := at + 1;
          }
          order := order[..at] + [pos] + order[at..];
        }
      }
    }

    // ------------------------------------------------------------- draining

    method DrainXbar(busy: seq<int>) returns (cooled: seq<int>)
      ensures cooled == Cool(busy)
    {
      cooled := busy;
      for i := 0 to |busy|
        invariant |cooled| == |busy|
        invariant forall k :: 0 <= k < i ==> cooled[k] == Cool(busy)[k]
        invariant forall k :: i <= k < |busy| ==> cooled[k] == busy[k]
      {
        if cooled[i] > 0 {
          cooled := cooled[i := cooled[i] - 2];
        }
      }
    }

    // The front request of each quad goes to its vault, if the vault takes it.
    method RequestsToVaults(accept: seq<bool>)
      requires View().Shaped() && |accept| == Quads
      modifies `vault, `quadReq
      ensures View() == ToVaults(old(View()), Quads, accept)
    {
      ghost var before := View();
      for i := 0 to Quads
        invariant View() == ToVaults(before, i, accept)
        invariant View().Shaped()
      {
        if quadReq[i] != [] && |quadResp[i]| < depth {
          var req := quadReq[i][0];
          if req.exit <= logicClk && accept[i] {
            vault := vault + [req];
            quadReq := quadReq[i := quadReq[i][1..]];
          }
        }
      }
    }

    // The front request of one link crosses to its quad, or waits and grows older.
    method SendToQuad(src: nat)
      requires View().Shaped() && src < |linkReq| && linkReq[src] != [] && linkReq[src][0].quad < Quads
      modifies `linkReq, `quadReq, `quadBusy, `linkAge
      ensures View() == ToQuad(old(View()), src)
    {
      var req := linkReq[src][0];
      var dest := req.quad;
      if |quadReq[dest]| < depth && quadBusy[dest] <= 0 {
        linkReq := linkReq[src := linkReq[src][1..]];
        quadReq := quadReq[dest := quadReq[dest] + [req.(exit := logicClk + req.flits)]];
        quadBusy := quadBusy[dest := req.flits];
        linkAge := linkAge[src := if linkReq[src] == [] then 0 else 1];
      } else {
        linkAge := linkAge[src := linkAge[src] + 1];
      }
    }

    method RequestsToQuads()
      requires Inv(View())
      modifies `linkReq, `quadReq, `quadBusy, `linkAge
      ensures RequestOrderOk(old(View())) && View() == ToQuads(old(View()), HmcSpec.BuildAgeQueue(old(View()).linkAge, old(View()).logicClk))
    {
      hide Inv, Distinct, ToQuads, HmcSpec.BuildAgeQueue, Orderly, ToQuad;
      ghost var before := View();
      InvHas(before);
      RequestOrder(before);
      var order := BuildAgeQueue(linkAge);
      ghost var target := ToQuads(before, order);
      while order != []
        invariant View().Shaped() && Orderly(View()) && Waiting(linkReq, order) && logicClk == before.logicClk
        invariant ToQuads(View(), order) == target
        decreases |order|
      {
        SentOn(View(), order[0], order);
        SendToQuad(order[0]);
        order := order[1..];
      }
      NoneLeft(View());
    }

    method DrainRequests(accept: seq<bool>)
      requires Inv(View()) && |accept| == Quads
      modifies `vault, `quadReq, `quadBusy, `linkReq, `linkAge
      ensures View() == HmcSpec.DrainRequests(old(View()), accept) && Inv(View())
    {
      hide Inv, ToVaults, ToQuads, Cool, HmcSpec.BuildAgeQueue;
      ghost var before := View();
      InvHas(before);
      DrainRequestsInv(before, accept);
      ToVaultsInv(before, Quads, accept);
      RequestsToVaults(accept);
      CoolQuads(View(), Cool(quadBusy));
      quadBusy := DrainXbar(quadBusy);
      RequestsToQuads();
    }

    // The front response of each link leaves for the caller once its time has come.
    method ResponsesToCaller()
      requires View().Shaped()
      modifies `delivered, `linkResp
      ensures View() == DeliverAll(old(View()), |old(linkReq)|)
    {
      ghost var before := View();
      for i := 0 to |linkReq|
        invariant View() == DeliverAll(before, i)
        invariant View().Shaped() && |linkReq| == |before.linkReq|
      {
        if linkResp[i] != [] {
          var resp := linkResp[i][0];
          if resp.exit <= logicClk {
            delivered := delivered + [resp];
            linkResp := linkResp[i := linkResp[i][1..]];
          }
        }
      }
    }

    // The front response of one quad crosses to its link, or waits and grows older.
    method SendToLink(src: nat)
      requires View().Shaped() && src < Quads && quadResp[src] != [] && quadResp[src][0].link < |linkReq|
      modifies `quadResp, `linkResp, `linkBusy, `quadAge
      ensures View() == ToLink(old(View()), src)
    {
      var resp := quadResp[src][0];
      var dest := resp.link;
      if |linkResp[dest]| < depth && linkBusy[dest] <= 0 {
        quadResp := quadResp[src := quadResp[src][1..]];
        linkResp := linkResp[dest := linkResp[dest] + [resp.(exit := logicClk + resp.flits)]];
        linkBusy := linkBusy[dest := resp.flits];
        quadAge := quadAge[src := if quadResp[src] == [] then 0 else 1];
      } else {
        quadAge := quadAge[src := quadAge[src] + 1];
      }
    }

    method ResponsesToLinks()
      requires Inv(View())
      modifies `quadResp, `linkResp, `linkBusy, `quadAge
      ensures ResponseOrderOk(old(View())) && View() == ToLinks(old(View()), HmcSpec.BuildAgeQueue(old(View()).quadAge, old(View()).logicClk))
    {
      hide Inv, Distinct, ToLinks, HmcSpec.BuildAgeQueue, Orderly, ToLink;
      ghost var before := View();
      InvHas(before);
      ResponseOrder(before);
      var order := BuildAgeQueue(quadAge);
      ghost var target := ToLinks(before, order);
      while order != []
        invariant View().Shaped() && Orderly(View()) && Waiting(quadResp, order) && logicClk == before.logicClk
        invariant ToLinks(View(), order) == target
        decreases |order|
      {
        SentBack(View(), order[0], order);
        SendToLink(order[0]);
        order := order[1..];
      }
      NoResponseLeft(View());
    }

    method DrainResponses()
      requires Inv(View())
      modifies `delivered, `linkResp, `linkBusy, `quadResp, `quadAge
      ensures View() == HmcSpec.DrainResponses(old(View())) && Inv(View())
    {
      hide Inv, DeliverAll, ToLinks, Cool, HmcSpec.BuildAgeQueue;
      ghost var before := View();
      InvHas(before);
      DrainResponsesInv(before);
      DeliverAllInv(before, |linkReq|);
      ResponsesToCaller();
      CoolLinks(View(), Cool(linkBusy));
      linkBusy := DrainXbar(linkBusy);
      ResponsesToLinks();
    }

    // A vault completes the request at v; the lookup by its address finds the entry at pick.
    method VaultCallback(v: nat, pick: nat)
      requires Inv(View()) && v < |vault|
      modifies `vault, `lookup, `quadResp, `quadAge
      ensures View() == HmcSpec.VaultCallback(old(View()), v, pick) && Inv(View())
    {
      hide Inv, Finds, Orderly, Conserved;
      ghost var before := View();
      VaultCallbackInv(before, v, pick);
      InvHas(before);
      AlwaysFinds(before, v);
      if pick < |lookup| && lookup[pick].addr == vault[v].addr {
        PickRouted(before, pick);
        var resp := lookup[pick];
        vault := Remove(vault, v);
        lookup := Remove(lookup, pick);
        quadResp := quadResp[resp.quad := quadResp[resp.quad] + [resp]];
        quadAge := quadAge[resp.quad := 1];
      }
    }

    // ----------------------------------------------------------------- clocks

    // The vaults report their completions, in order; an entry that names no such
    // request or response stands for nothing.
    method DRAMClockTick(done: seq<(nat, nat)>)
      requires Inv(View())
      modifies `vault, `lookup, `quadResp, `quadAge
      ensures View().Shaped() && View() == Run(old(View()), VaultOps(done)) && Inv(View())
    {
      hide Inv, Run, Step, HmcSpec.VaultCallback, VaultOps;
      ghost var before := View();
      InvHas(before);
      RunNone(before);
      NoVaultOps(done);
      for i := 0 to |done|
        invariant Inv(View()) && View() == Run(before, VaultOps(done[..i]))
      {
        ghost var s := View();
        InvHas(s);
        if done[i].0 < |vault| {
          VaultCallback(done[i].0, done[i].1);
        }
        VaultStep(s, done[i].0, done[i].1);
        NextVaultOp(done, i);
        RunMore(before, VaultOps(done[..i]), OpVault(done[i].0, done[i].1));
      }
      assert done[..|done|] == done;
    }

    method AdvanceLogic()
      requires Inv(View())
      modifies `logicPs, `logicClk
      ensures logicPs == old(logicPs) + perLogic && logicClk == old(logicClk) + 1
      ensures View() == old(View()).(logicClk := old(View()).logicClk + 1) && Inv(View())
    {
      ClockInv(View());
      logicPs := logicPs + perLogic;
      logicClk := logicClk + 1;
    }

    // Both clocks tick: responses, vaults, requests.
    method TickTogether(done: seq<(nat, nat)>, accept: seq<bool>)
      requires Inv(View()) && |accept| == Quads
      modifies `delivered, `linkResp, `linkBusy, `quadResp, `quadAge, `vault, `lookup, `quadReq, `quadBusy, `linkReq, `linkAge,
               `logicPs, `logicClk
      ensures Inv(View()) && logicPs == old(logicPs) + perLogic && logicClk == old(logicClk) + 1
      ensures View().Shaped() && old(View()).Shaped()
      ensures AllOk([OpResponses] + VaultOps(done) + [OpRequests(accept), OpLogicClock])
      ensures View() == Run(old(View()), [OpResponses] + VaultOps(done) + [OpRequests(accept), OpLogicClock])
    {
      hide *;
      FirstSteps(View(), done, accept);
      DrainResponses();
      DRAMClockTick(done);
      DrainRequests(accept);
      AdvanceLogic();
      InvHas(View());
    }

    // What one tick does before it catches up.
    method FirstPart(done: seq<(nat, nat)>, accepts: Accepts)
      requires Inv(View())
      modifies `delivered, `linkResp, `linkBusy, `quadResp, `quadAge, `vault, `lookup, `quadReq, `quadBusy, `linkReq, `linkAge,
               `logicPs, `logicClk
      ensures Inv(View()) && (logicPs, logicClk) == Begin(old(Clocks()), old(logicClk))
      ensures View().Shaped() && old(View()).Shaped()
      ensures View() == Run(old(View()), FirstOps(old(Clocks()), old(logicClk), done, accepts))
    {
      hide Inv, Run, AcceptAt, VaultOps;
      if dramPs == logicPs {
        TickTogether(done, AcceptAt(accepts, logicClk));
      } else {
        InvHas(View());
        DRAMClockTick(done);
      }
    }

    // One tick of the DRAM clock: the logic side runs until it is no longer behind.
    method ClockTick(done: seq<(nat, nat)>, accepts: Accepts)
      requires Valid()
      modifies this
      ensures Valid() && old(View()).Shaped() && old(Clocks()).Valid()
      ensures View() == Run(old(View()), TickOps(old(Clocks()), old(logicClk), done, accepts))
      ensures Clocks() == TickClocks(old(Clocks()), old(logicClk), accepts)
      ensures logicClk == TickClk(old(Clocks()), old(logicClk), accepts)
    {
      hide Inv, Run, CatchUp, LogicOps, FirstOps, Counted;
      ghost var before, clocks, clk := View(), Clocks(), logicClk;
      InvHas(before);
      CountedIs(clocks, clk);
      TickCounts(clocks, clk, accepts);
      ghost var sofar := FirstOps(clocks, clk, done, accepts);
      FirstPart(done, accepts);
      ghost var at, until := Begin(clocks, clk), dramPs + perDram;
      ghost var rest := CatchUp(at.0, until, perLogic, at.1, accepts);
      while logicPs < dramPs + perDram
        invariant Inv(View()) && View().Shaped() && AllOk(sofar) && View() == Run(before, sofar)
        invariant dramPs == clocks.dramPs
        invariant var left := CatchUp(logicPs, until, perLogic, logicClk, accepts);
                  sofar + left.0 == FirstOps(clocks, clk, done, accepts) + rest.0 && left.1 == rest.1 && left.2 == rest.2
        decreases until - logicPs
      {
        CatchUpMore(logicPs, until, perLogic, logicClk, accepts);
        ghost var ops, rest := LogicOps(accepts, logicClk), CatchUp(logicPs + perLogic, until, perLogic, logicClk + 1, accepts);
        assert sofar + (ops + rest.0) == (sofar + ops) + rest.0;
        LogicTick(before, sofar, accepts);
        sofar := sofar + ops;
      }
      CaughtUp(logicPs, until, perLogic, logicClk, accepts);
      assert sofar + [] == sofar;
      dramPs := dramPs + perDram;
    }

    // One logic tick on its own; sofar is what has run since before.
    method LogicTick(ghost before: State, ghost sofar: seq<Op>, accepts: Accepts)
      requires before.Shaped() && AllOk(sofar) && Inv(View()) && View() == Run(before, sofar)
      modifies `delivered, `linkResp, `linkBusy, `quadResp, `quadAge, `vault, `quadReq, `quadBusy, `linkReq, `linkAge,
               `logicPs, `logicClk
      ensures logicPs == old(logicPs) + perLogic && logicClk == old(logicClk) + 1 && Inv(View())
      ensures AllOk(sofar + LogicOps(accepts, old(logicClk))) && View() == Run(before, sofar + LogicOps(accepts, old(logicClk)))
    {
      hide *;
      ghost var s := View();
      InvHas(s);
      LogicOpsAre(accepts, logicClk);
      LogicSteps(before, sofar, s, AcceptAt(accepts, logicClk));
      DrainResponses();
      InvHas(View());
      DrainRequests(AcceptAt(accepts, logicClk));
      AdvanceLogic();
    }
  }

  lemma FirstSteps(s: State, done: seq<(nat, nat)>, accept: seq<bool>)
    requires Inv(s) && |accept| == Quads
    ensures var s1 := HmcSpec.DrainResponses(s);
            && s.Shaped() && s1.Shaped()
            && var s2 := Run(s1, VaultOps(done));
            && var s3 := HmcSpec.DrainRequests(s2, accept);
            && s3.Shaped() && AllOk([OpResponses] + VaultOps(done) + [OpRequests(accept), OpLogicClock])
            && Run(s, [OpResponses] + VaultOps(done) + [OpRequests(accept), OpLogicClock]) == s3.(logicClk := s3.logicClk + 1)
  {
    hide *;
    InvHas(s);
    SingleSteps(s, accept);
    RunNone(s);
    RunMore(s, [], OpResponses);
    assert [] + [OpResponses] == [OpResponses];
    DrainResponsesInv(s);
    var s1 := HmcSpec.DrainResponses(s);
    InvHas(s1);
    RunInv(s1, VaultOps(done));
    RunAppend(s, [OpResponses], VaultOps(done));
    var s2 := Run(s1, VaultOps(done));
    InvHas(s2);
    SingleSteps(s2, accept);
    DrainRequestsInv(s2, accept);
    var s3 := HmcSpec.DrainRequests(s2, accept);
    InvHas(s3);
    SingleSteps(s3, accept);
    var ops := [OpResponses] + VaultOps(done);
    RunMore(s, ops, OpRequests(accept));
    RunMore(s, ops + [OpRequests(accept)], OpLogicClock);
    assert ops + [OpRequests(accept), OpLogicClock] == ops + [OpRequests(accept)] + [OpLogicClock];
  }

  lemma {:induction false} RunAppend(s: State, a: seq<Op>, b: seq<Op>)
    requires s.Shaped() && AllOk(a) && AllOk(b)
    ensures AllOk(a + b) && Run(s, a + b) == Run(Run(s, a), b)
  {
    if b == [] {
      assert a + b == a;
    } else {
      var n := |b| - 1;
      RunAppend(s, a, b[..n]);
      assert (a + b)[..|a + b| - 1] == a + b[..n];
    }
  }

  lemma CountedIs(c: Clocks, clk: nat)
    requires Counted(c, clk)
    ensures c.Valid()
  {
  }

  lemma CatchUpMore(logicPs: nat, until: nat, per: nat, clk: nat, accepts: Accepts)
    requires 0 < per && logicPs < until
    ensures var r, rest := CatchUp(logicPs, until, per, clk, accepts), CatchUp(logicPs + per, until, per, clk + 1, accepts);
            r.0 == LogicOps(accepts, clk) + rest.0 && r.1 == rest.1 && r.2 == rest.2
  {
  }

  lemma CaughtUp(logicPs: nat, until: nat, per: nat, clk: nat, accepts: Accepts)
    requires 0 < per && logicPs >= until
    ensures CatchUp(logicPs, until, per, clk, accepts) == ([], logicPs, clk)
  {
  }

  lemma LogicOpsAre(accepts: Accepts, clk: nat)
    ensures LogicOps(accepts, clk) == [OpResponses, OpRequests(AcceptAt(accepts, clk)), OpLogicClock]
  {
  }

  lemma LogicSteps(before: State, sofar: seq<Op>, s: State, accept: seq<bool>)
    requires before.Shaped() && AllOk(sofar) && |accept| == Quads && Inv(s) && s == Run(before, sofar)
    ensures var ops := [OpResponses, OpRequests(accept), OpLogicClock];
            var s1 := HmcSpec.DrainResponses(s);
            && s1.Shaped() && HmcSpec.DrainRequests(s1, accept).Shaped() && AllOk(sofar + ops)
            && var s2 := HmcSpec.DrainRequests(s1, accept);
               Run(before, sofar + ops) == s2.(logicClk := s2.logicClk + 1)
  {
    hide *;
    DrainResponsesInv(s);
    var s1 := HmcSpec.DrainResponses(s);
    InvHas(s);
    InvHas(s1);
    DrainRequestsInv(s1, accept);
    var s2 := HmcSpec.DrainRequests(s1, accept);
    InvHas(s2);
    SingleSteps(s, accept);
    SingleSteps(s1, accept);
    SingleSteps(s2, accept);
    RunMore(before, sofar, OpResponses);
    RunMore(before, sofar + [OpResponses], OpRequests(accept));
    RunMore(before, sofar + [OpResponses] + [OpRequests(accept)], OpLogicClock);
    assert sofar + [OpResponses, OpRequests(accept), OpLogicClock] ==
           sofar + [OpResponses] + [OpRequests(accept)] + [OpLogicClock];
  }

  lemma SingleSteps(s: State, accept: seq<bool>)
    requires s.Shaped() && !s.failed && |accept| == Quads
    ensures OpOk(OpResponses) && OpOk(OpRequests(accept)) && OpOk(OpLogicClock)
    ensures Step(s, OpResponses) == HmcSpec.DrainResponses(s)
    ensures Step(s, OpRequests(accept)) == HmcSpec.DrainRequests(s, accept)
    ensures Step(s, OpLogicClock) == s.(logicClk := s.logicClk + 1)
  {
  }

  lemma InsertIsTry(s: State, addr: nat, quad: nat, flits: nat, respFlits: nat)
    requires s.Shaped()
    ensures HmcSpec.InsertHMCReq(s, addr, quad, flits, respFlits)
         == TryLinks(s, Req(s.inserted, addr, quad, flits, respFlits, 0), |s.linkReq|)
  {
  }

  lemma SomeLink(s: State)
    requires s.Shaped()
    ensures 0 < |s.linkReq| && s.nextLink < |s.linkReq|
  {
  }

  lemma TryNone(s: State, req: Req)
    requires s.Shaped()
    ensures TryLinks(s, req, 0) == (s, false)
  {
  }

  lemma TryOne(s: State, req: Req, n: nat)
    requires s.Shaped() && 0 < n
    ensures s.nextLink < |s.linkReq|
    ensures var s' := HmcSpec.InsertReqToLink(s, req, s.nextLink);
            && HmcSpec.IterateNextLink(s).Shaped() && s'.Shaped() && HmcSpec.IterateNextLink(s').Shaped()
            && TryLinks(s, req, n) ==
               (if |s.linkReq[s.nextLink]| < s.depth then (HmcSpec.IterateNextLink(s'), true)
                else TryLinks(HmcSpec.IterateNextLink(s), req, n - 1))
            && |HmcSpec.IterateNextLink(s').linkReq| == |HmcSpec.IterateNextLink(s).linkReq| == |s.linkReq|
            && HmcSpec.IterateNextLink(s').nextLink == HmcSpec.IterateNextLink(s).nextLink == (s.nextLink + 1) % |s.linkReq|
  {
  }

  lemma TurnNext(n: nat, start: nat, k: nat)
    requires start < n && k <= n
    ensures k < n ==> Turn(n, start, k + 1) == (Turn(n, start, k) + 1) % n
    ensures Turn(n, start, 0) == Turn(n, start, n) == start && (0 < k < n ==> Turn(n, start, k) != start)
  {
    hide *;
    StartTurn(n, start);
    if k < n {
      StepTurn(n, start, k);
      if 0 < k {
        TurnOnce(n, start, 0, k);
      }
    }
  }

  lemma StartTurn(n: nat, start: nat)
    requires start < n
    ensures Turn(n, start, 0) == Turn(n, start, n) == start
  {
    WrapOnce(start, n);
  }

  lemma StepTurn(n: nat, start: nat, k: nat)
    requires start < n && k < n
    ensures Turn(n, start, k + 1) == (Turn(n, start, k) + 1) % n
  {
    hide Turn;
    TurnIs(n, start, k);
    if k + start < n - 1 {
      TurnIs(n, start, k + 1);
    } else if k + start == n - 1 {
      TurnAt(n, start, k + 1, 1, 0);
    } else {
      TurnAt(n, start, k + 1, 1, k + 1 + start - n);
    }
  }

  lemma TurnAt(n: nat, start: nat, k: nat, q: nat, r: nat)
    requires r < n && k + start == q * n + r
    ensures Turn(n, start, k) == r
  {
    Quotient(k + start, n, q, r);
  }

  ghost predicate RequestOrderOk(s: State) {
    && s.Shaped() && 0 < |s.linkAge|
    && forall i :: 0 <= i < |HmcSpec.BuildAgeQueue(s.linkAge, s.logicClk)| ==> HmcSpec.BuildAgeQueue(s.linkAge, s.logicClk)[i] < s.Links()
  }

  lemma RequestOrder(s: State)
    requires Inv(s)
    ensures Orderly(s) && s.Shaped() && !s.failed && RequestOrderOk(s)
    ensures Waiting(s.linkReq, HmcSpec.BuildAgeQueue(s.linkAge, s.logicClk))
  {
    PositiveWaits(s.linkAge, s.linkReq, s.logicClk);
  }

  ghost predicate ResponseOrderOk(s: State) {
    && s.Shaped() && 0 < |s.quadAge|
    && forall i :: 0 <= i < |HmcSpec.BuildAgeQueue(s.quadAge, s.logicClk)| ==> HmcSpec.BuildAgeQueue(s.quadAge, s.logicClk)[i] < Quads
  }

  lemma ResponseOrder(s: State)
    requires Inv(s)
    ensures Orderly(s) && s.Shaped() && !s.failed && ResponseOrderOk(s)
    ensures Waiting(s.quadResp, HmcSpec.BuildAgeQueue(s.quadAge, s.logicClk))
  {
    PositiveWaits(s.quadAge, s.quadResp, s.logicClk);
  }

  lemma NoResponseLeft(s: State)
    requires s.Shaped()
    ensures ToLinks(s, []) == s
  {
  }

  lemma SentBack(s: State, q: nat, order: seq<nat>)
    requires Orderly(s) && order != [] && q == order[0] && Waiting(s.quadResp, order)
    ensures q < Quads && s.quadResp[q] != [] && s.quadResp[q][0].link < s.Links()
    ensures Orderly(ToLink(s, q)) && Waiting(ToLink(s, q).quadResp, order[1..])
    ensures ToLinks(s, order) == ToLinks(ToLink(s, q), order[1..])
  {
    FrontReturns(s, q);
    OtherQuadsWait(s, q, order);
    ToLinkOrderly(s, q);
  }

  lemma NoneLeft(s: State)
    requires s.Shaped()
    ensures ToQuads(s, []) == s
  {
  }

  lemma SentOn(s: State, l: nat, order: seq<nat>)
    requires Orderly(s) && order != [] && l == order[0] && Waiting(s.linkReq, order)
    ensures l < s.Links() && s.linkReq[l] != [] && s.linkReq[l][0].quad < Quads
    ensures Orderly(ToQuad(s, l)) && Waiting(ToQuad(s, l).linkReq, order[1..])
    ensures ToQuads(s, order) == ToQuads(ToQuad(s, l), order[1..])
  {
    FrontRouted(s, l);
    OthersWait(s, l, order);
  }

  lemma RunNone(s: State)
    requires s.Shaped()
    ensures AllOk([]) && Run(s, []) == s
  {
  }

  lemma NoVaultOps(done: seq<(nat, nat)>)
    ensures VaultOps(done[..0]) == []
  {
  }

  lemma NextVaultOp(done: seq<(nat, nat)>, i: nat)
    requires i < |done|
    ensures VaultOps(done[..i + 1]) == VaultOps(done[..i]) + [OpVault(done[i].0, done[i].1)]
    ensures OpOk(OpVault(done[i].0, done[i].1))
  {
    assert done[..i + 1][..i] == done[..i];
  }

  lemma VaultStep(s: State, v: nat, pick: nat)
    requires Inv(s)
    ensures s.Shaped() && OpOk(OpVault(v, pick))
    ensures Step(s, OpVault(v, pick)) == if v < |s.vault| then HmcSpec.VaultCallback(s, v, pick) else s
  {
  }

  lemma RunMore(s: State, ops: seq<Op>, op: Op)
    requires s.Shaped() && AllOk(ops) && OpOk(op)
    ensures AllOk(ops + [op]) && Run(s, ops + [op]) == Step(Run(s, ops), op)
  {
    assert (ops + [op])[..|ops|] == ops;
  }
}
