// The two clocks of the cube: what one DRAM tick runs on the logic side.
module HmcClock {
  import opened HmcSpec

  // Whether the vault behind quad i takes the front request at logic clock c.
  type Accepts = (nat, nat) -> bool

  function AcceptAt(accepts: Accepts, clk: nat): (r: seq<bool>)
    ensures |r| == Quads
  {
    seq(Quads, i requires 0 <= i < Quads => accepts(clk, i))
  }

  function LogicOps(accepts: Accepts, clk: nat): seq<Op> { [OpResponses, OpRequests(AcceptAt(accepts, clk)), OpLogicClock] }

  // The vault completions of one DRAM tick, in order.
  function VaultOps(done: seq<(nat, nat)>): (ops: seq<Op>)
    ensures AllOk(ops)
  {
    if done == [] then [] else VaultOps(done[..|done| - 1]) + [OpVault(done[|done| - 1].0, done[|done| - 1].1)]
  }

  datatype Clocks = Clocks(logicPs: nat, dramPs: nat, perLogic: nat, perDram: nat) {
    predicate Valid() { 0 < perLogic && 0 < perDram }
  }

  // What the catching-up loop runs, and the logic time and clock it ends at.
  function CatchUp(logicPs: nat, until: nat, per: nat, clk: nat, accepts: Accepts): (r: (seq<Op>, nat, nat))
    requires 0 < per
    ensures AllOk(r.0) && r.1 >= until && (logicPs < until ==> r.1 < until + per) && (logicPs >= until ==> r.1 == logicPs)
    decreases if logicPs < until then until - logicPs else 0
  {
    if logicPs < until then
      var rest := CatchUp(logicPs + per, until, per, clk + 1, accepts);
      (LogicOps(accepts, clk) + rest.0, rest.1, rest.2)
    else ([], logicPs, clk)
  }

  // What one tick runs before the loop, and where it leaves the logic side.
  function FirstOps(c: Clocks, clk: nat, done: seq<(nat, nat)>, accepts: Accepts): (ops: seq<Op>)
    ensures AllOk(ops)
  {
    if c.dramPs == c.logicPs then [OpResponses] + VaultOps(done) + [OpRequests(AcceptAt(accepts, clk)), OpLogicClock]
    else VaultOps(done)
  }

  function Begin(c: Clocks, clk: nat): (r: (nat, nat)) {
    if c.dramPs == c.logicPs then (c.logicPs + c.perLogic, clk + 1) else (c.logicPs, clk)
  }

  function TickOps(c: Clocks, clk: nat, done: seq<(nat, nat)>, accepts: Accepts): (ops: seq<Op>)
    requires c.Valid()
    ensures AllOk(ops)
  {
    var at := Begin(c, clk);
    FirstOps(c, clk, done, accepts) + CatchUp(at.0, c.dramPs + c.perDram, c.perLogic, at.1, accepts).0
  }

  function TickClocks(c: Clocks, clk: nat, accepts: Accepts): Clocks
    requires c.Valid()
  {
    var at := Begin(c, clk);
    c.(logicPs := CatchUp(at.0, c.dramPs + c.perDram, c.perLogic, at.1, accepts).1, dramPs := c.dramPs + c.perDram)
  }

  function TickClk(c: Clocks, clk: nat, accepts: Accepts): nat
    requires c.Valid()
  {
    var at := Begin(c, clk);
    CatchUp(at.0, c.dramPs + c.perDram, c.perLogic, at.1, accepts).2
  }

  predicate InStep(c: Clocks) { c.Valid() && c.dramPs <= c.logicPs < c.dramPs + c.perLogic }

  // The logic clock is never behind the DRAM clock, nor a whole period ahead, and has
  // ticked once for each logic period begun.
  predicate Counted(c: Clocks, clk: nat) { InStep(c) && c.logicPs == clk * c.perLogic }

  lemma {:induction false} CatchUpCounts(logicPs: nat, until: nat, per: nat, clk: nat, accepts: Accepts)
    requires 0 < per && logicPs == clk * per
    ensures var r := CatchUp(logicPs, until, per, clk, accepts); r.1 == r.2 * per
    decreases if logicPs < until then until - logicPs else 0
  {
    if logicPs < until {
      CatchUpCounts(logicPs + per, until, per, clk + 1, accepts);
    }
  }

  lemma TickCounts(c: Clocks, clk: nat, accepts: Accepts)
    requires Counted(c, clk)
    ensures Counted(TickClocks(c, clk, accepts), TickClk(c, clk, accepts))
  {
    var at := Begin(c, clk);
    assert at.0 == at.1 * c.perLogic;
    CatchUpCounts(at.0, c.dramPs + c.perDram, c.perLogic, at.1, accepts);
  }

  // The number of logic ticks is the DRAM time over the logic period, rounded up.
  lemma CountedMeansRoundedUp(c: Clocks, clk: nat)
    requires Counted(c, clk)
    ensures (clk - 1) * c.perLogic < c.dramPs <= clk * c.perLogic
  {
  }
}
