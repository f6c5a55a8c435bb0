// The crossbar of the hybrid memory cube (dramsim3/src/hmc.cc) as a step machine:
// requests go link -> quad -> vault, responses quad -> link -> caller.
module HmcSpec {
  import opened Basics

  // id, the order of insertion, is not in the source.
  datatype Req = Req(id: nat, addr: nat, quad: nat, flits: nat, respFlits: nat, exit: nat)

  datatype Resp = Resp(id: nat, addr: nat, link: nat, quad: nat, flits: nat, exit: nat)

  const Quads: nat := 4

  // vault holds the requests that the vaults have accepted and not completed;
  // lookup is the multimap of waiting responses. `failed` is set where the source
  // would take the front of an empty queue or miss a response.
  datatype State = State(
    failed: bool, depth: nat, nextLink: nat, logicClk: nat, inserted: nat,
    linkReq: seq<seq<Req>>, quadReq: seq<seq<Req>>, vault: seq<Req>,
    lookup: seq<Resp>, quadResp: seq<seq<Resp>>, linkResp: seq<seq<Resp>>, delivered: seq<Resp>,
    linkBusy: seq<int>, quadBusy: seq<int>, linkAge: seq<nat>, quadAge: seq<nat>)
  {
    function Links(): nat { |linkReq| }

    predicate Shaped() {
      && 0 < Links() && |linkResp| == |linkBusy| == |linkAge| == Links() && nextLink < Links()
      && |quadReq| == |quadResp| == |quadBusy| == |quadAge| == Quads
    }
  }

  // -------------------------------------------------------------- insertion

  function RespFor(req: Req, link: nat): Resp { Resp(req.id, req.addr, link, req.quad, req.respFlits, 0) }

  function InsertReqToLink(s: State, req: Req, l: nat): State
    requires s.Shaped() && l < s.Links()
  {
    s.(linkReq := s.linkReq[l := s.linkReq[l] + [req]], lookup := s.lookup + [RespFor(req, l)],
       linkAge := s.linkAge[l := 1], inserted := s.inserted + 1)
  }

  function IterateNextLink(s: State): State
    requires s.Shaped()
  {
    s.(nextLink := (s.nextLink + 1) % s.Links())
  }

  // Try n links, round robin; whether one took the request.
  function TryLinks(s: State, req: Req, n: nat): (State, bool)
    requires s.Shaped()
    decreases n
  {
    if n == 0 then (s, false)
    else if |s.linkReq[s.nextLink]| < s.depth then (IterateNextLink(InsertReqToLink(s, req, s.nextLink)), true)
    else TryLinks(IterateNextLink(s), req, n - 1)
  }

  function InsertHMCReq(s: State, addr: nat, quad: nat, flits: nat, respFlits: nat): (State, bool)
    requires s.Shaped()
  {
    TryLinks(s, Req(s.inserted, addr, quad, flits, respFlits, 0), s.Links())
  }

  // ---------------------------------------------------------- arbitration order

  // Where BuildAgeQueue puts a position: before the first entry that its age
  // exceeds. (The source compares the age with the entry itself, an index.)
  function InsertAt(q: seq<nat>, age: nat): (i: nat)
    ensures i <= |q|
  {
    if q == [] || age > q[0] then 0 else 1 + InsertAt(q[1..], age)
  }

  function InsertAge(q: seq<nat>, pos: nat, age: nat): seq<nat> {
    q[..InsertAt(q, age)] + [pos] + q[InsertAt(q, age)..]
  }

  // After looking at n positions from the round-robin start.
  function AgeQueue(age: seq<nat>, start: nat, n: nat): seq<nat>
    requires n <= |age|
  {
    if n == 0 then []
    else
      var q := AgeQueue(age, start, n - 1);
      var pos := (n - 1 + start) % |age|;
      if age[pos] > 0 then InsertAge(q, pos, age[pos]) else q
  }

  function BuildAgeQueue(age: seq<nat>, clk: nat): seq<nat>
    requires 0 < |age|
  {
    AgeQueue(age, clk % |age|, |age|)
  }

  // ------------------------------------------------------------------ requests

  function ToVault(s: State, i: nat, accept: bool): State
    requires s.Shaped() && i < Quads
  {
    if s.quadReq[i] != [] && |s.quadResp[i]| < s.depth && s.quadReq[i][0].exit <= s.logicClk && accept
    then s.(vault := s.vault + [s.quadReq[i][0]], quadReq := s.quadReq[i := s.quadReq[i][1..]])
    else s
  }

  function ToVaults(s: State, n: nat, accept: seq<bool>): (s': State)
    requires s.Shaped() && n <= Quads == |accept|
    ensures s'.Shaped()
  {
    if n == 0 then s else ToVault(ToVaults(s, n - 1, accept), n - 1, accept[n - 1])
  }

  function Cool(busy: seq<int>): (busy': seq<int>)
    ensures |busy'| == |busy|
  {
    seq(|busy|, i requires 0 <= i < |busy| => if busy[i] > 0 then busy[i] - 2 else busy[i])
  }

  function ToQuad(s: State, l: nat): State
    requires s.Shaped() && l < s.Links()
  {
    if s.linkReq[l] == [] || s.linkReq[l][0].quad >= Quads then s.(failed := true)
    else
      var req := s.linkReq[l][0];
      var q := req.quad;
      if |s.quadReq[q]| < s.depth && s.quadBusy[q] <= 0 then
        var rest := s.linkReq[l][1..];
        s.(linkReq := s.linkReq[l := rest],
           quadReq := s.quadReq[q := s.quadReq[q] + [req.(exit := s.logicClk + req.flits)]],
           quadBusy := s.quadBusy[q := req.flits],
           linkAge := s.linkAge[l := if rest == [] then 0 else 1])
      else s.(linkAge := s.linkAge[l := s.linkAge[l] + 1])
  }

  function ToQuads(s: State, order: seq<nat>): (s': State)
    requires s.Shaped() && forall i :: 0 <= i < |order| ==> order[i] < s.Links()
    ensures s'.Shaped() && s'.Links() == s.Links()
    decreases |order|
  {
    if order == [] then s else ToQuads(ToQuad(s, order[0]), order[1..])
  }

  lemma {:induction false} AgeQueueInRange(age: seq<nat>, start: nat, n: nat)
    requires n <= |age|
    ensures forall i :: 0 <= i < |AgeQueue(age, start, n)| ==> AgeQueue(age, start, n)[i] < |age|
  {
    if n > 0 {
      AgeQueueInRange(age, start, n - 1);
    }
  }

  function DrainRequests(s: State, accept: seq<bool>): State
    requires s.Shaped() && |accept| == Quads
  {
    var s1 := ToVaults(s, Quads, accept);
    var s2 := s1.(quadBusy := Cool(s1.quadBusy));
    AgeQueueInRange(s2.linkAge, s2.logicClk % |s2.linkAge|, |s2.linkAge|);
    ToQuads(s2, BuildAgeQueue(s2.linkAge, s2.logicClk))
  }

  // ----------------------------------------------------------------- responses

  function Deliver(s: State, l: nat): State
    requires s.Shaped() && l < s.Links()
  {
    if s.linkResp[l] != [] && s.linkResp[l][0].exit <= s.logicClk
    then s.(delivered := s.delivered + [s.linkResp[l][0]], linkResp := s.linkResp[l := s.linkResp[l][1..]])
    else s
  }

  function DeliverAll(s: State, n: nat): (s': State)
    requires s.Shaped() && n <= s.Links()
    ensures s'.Shaped() && s'.Links() == s.Links()
  {
    if n == 0 then s else Deliver(DeliverAll(s, n - 1), n - 1)
  }

  function ToLink(s: State, q: nat): State
    requires s.Shaped() && q < Quads
  {
    if s.quadResp[q] == [] || s.quadResp[q][0].link >= s.Links() then s.(failed := true)
    else
      var resp := s.quadResp[q][0];
      var l := resp.link;
      if |s.linkResp[l]| < s.depth && s.linkBusy[l] <= 0 then
        var rest := s.quadResp[q][1..];
        s.(quadResp := s.quadResp[q := rest],
           linkResp := s.linkResp[l := s.linkResp[l] + [resp.(exit := s.logicClk + resp.flits)]],
           linkBusy := s.linkBusy[l := resp.flits],
           quadAge := s.quadAge[q := if rest == [] then 0 else 1])
      else s.(quadAge := s.quadAge[q := s.quadAge[q] + 1])
  }

  function ToLinks(s: State, order: seq<nat>): (s': State)
    requires s.Shaped() && forall i :: 0 <= i < |order| ==> order[i] < Quads
    ensures s'.Shaped() && s'.Links() == s.Links()
    decreases |order|
  {
    if order == [] then s else ToLinks(ToLink(s, order[0]), order[1..])
  }

  function DrainResponses(s: State): State
    requires s.Shaped()
  {
    var s1 := DeliverAll(s, s.Links());
    var s2 := s1.(linkBusy := Cool(s1.linkBusy));
    AgeQueueInRange(s2.quadAge, s2.logicClk % Quads, Quads);
    ToLinks(s2, BuildAgeQueue(s2.quadAge, s2.logicClk))
  }

  // ------------------------------------------------------------------- vaults

  predicate Finds(lookup: seq<Resp>, addr: nat) { exists i :: 0 <= i < |lookup| && lookup[i].addr == addr }

  // The vaults complete the request at index v; the lookup by its address finds the
  // entry at pick.
  function VaultCallback(s: State, v: nat, pick: nat): State
    requires s.Shaped() && v < |s.vault|
  {
    var addr := s.vault[v].addr;
    var s1 := s.(vault := Remove(s.vault, v));
    if !Finds(s.lookup, addr) then s1.(failed := true)
    else if pick >= |s.lookup| || s.lookup[pick].addr != addr then s
    else
      var resp := s.lookup[pick];
      if resp.quad >= Quads then s1.(failed := true)
      else s1.(lookup := Remove(s.lookup, pick), quadResp := s.quadResp[resp.quad := s.quadResp[resp.quad] + [resp]],
               quadAge := s.quadAge[resp.quad := 1])
  }

  // -------------------------------------------------------------------- runs

  datatype Op =
    | OpInsert(addr: nat, quad: nat, flits: nat, respFlits: nat)
    | OpRequests(accept: seq<bool>)
    | OpResponses
    | OpVault(v: nat, pick: nat)
    | OpLogicClock

  // A request's quad is its vault's number modulo four.
  predicate OpOk(op: Op) {
    (op.OpInsert? ==> op.quad < Quads) && (op.OpRequests? ==> |op.accept| == Quads)
  }

  function Step(s: State, op: Op): State
    requires s.Shaped() && OpOk(op)
  {
    if s.failed then s
    else
      match op
      case OpInsert(addr, quad, flits, respFlits) => InsertHMCReq(s, addr, quad, flits, respFlits).0
      case OpRequests(accept) => DrainRequests(s, accept)
      case OpResponses => DrainResponses(s)
      case OpVault(v, pick) => if v < |s.vault| then VaultCallback(s, v, pick) else s
      case OpLogicClock => s.(logicClk := s.logicClk + 1)
  }

  lemma {:induction false} TryLinksShaped(s: State, req: Req, n: nat)
    requires s.Shaped()
    ensures TryLinks(s, req, n).0.Shaped()
    decreases n
  {
    if n > 0 && |s.linkReq[s.nextLink]| >= s.depth {
      TryLinksShaped(IterateNextLink(s), req, n - 1);
    }
  }

  lemma StepShaped(s: State, op: Op)
    requires s.Shaped() && OpOk(op)
    ensures Step(s, op).Shaped()
  {
    match op {
      case OpInsert(addr, quad, flits, respFlits) =>
        TryLinksShaped(s, Req(s.inserted, addr, quad, flits, respFlits, 0), s.Links());
      case _ =>
    }
  }

  predicate AllOk(ops: seq<Op>) { forall i :: 0 <= i < |ops| ==> OpOk(ops[i]) }

  function Run(s: State, ops: seq<Op>): (s': State)
    requires s.Shaped() && AllOk(ops)
    ensures s'.Shaped()
  {
    if ops == [] then s
    else
      var before := Run(s, ops[..|ops| - 1]);
      StepShaped(before, ops[|ops| - 1]);
      Step(before, ops[|ops| - 1])
  }

  function Init(links: nat, depth: nat): State {
    State(false, depth, 0, 0, 0, seq(links, _ => []), seq(Quads, _ => []), [],
          [], seq(Quads, _ => []), seq(links, _ => []), [],
          seq(links, _ => 0), seq(Quads, _ => 0), seq(links, _ => 0), seq(Quads, _ => 0))
  }
}
