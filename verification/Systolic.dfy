// The systolic tile walker (hygcn/hardware/systolic_arr.cpp) as a step machine.
module Systolic {
  import opened Basics

  datatype Phase = Filling | Computing | Ready | OutSync | Done | Idle

  function CeilDiv(a: nat, b: nat): nat
    requires 0 < b
  {
    (a + b - 1) / b
  }

  // The array and the two matrices: a has aH rows, w is wH by wW.
  datatype Dims = Dims(height: nat, width: nat, cap: nat, data: nat, aH: nat, wH: nat, wW: nat) {
    // What one row of output takes.
    function RowBytes(): nat { wW * data }

    // Otherwise the source divides by zero.
    predicate Valid() { 0 < height && 0 < width && 0 < aH && 0 < wH && 0 < RowBytes() <= cap }

    function Batch(): (n: nat)
      requires Valid()
      ensures 0 < n <= aH
    {
      QuotientPositive(cap, RowBytes());
      if cap / RowBytes() < aH then cap / RowBytes() else aH
    }

    function NumH(): (n: nat)
      requires Valid()
      ensures 0 < n
    {
      Ceiling(wH, height);
      CeilDiv(wH, height)
    }

    function NumW(): (n: nat)
      requires Valid()
      ensures 0 < n
    {
      RowBytesPositive();
      Ceiling(wW, width);
      CeilDiv(wW, width)
    }

    lemma RowBytesPositive()
      requires Valid()
      ensures 0 < wW
    {
      if wW == 0 {
        assert false;
      }
    }

    function NumBatch(): (n: nat)
      requires Valid()
      ensures 0 < n && (n - 1) * Batch() < aH <= n * Batch()
    {
      Ceiling(aH, Batch());
      CeilDiv(aH, Batch())
    }

    function LastBatch(): (n: nat)
      requires Valid()
      ensures 0 < n <= Batch()
    {
      LastIs(NumBatch(), Batch(), aH);
      aH - Batch() * (NumBatch() - 1)
    }

    function BatchAt(b: nat): nat
      requires Valid()
    {
      if b == NumBatch() - 1 then LastBatch() else Batch()
    }
  }

  lemma LastIs(n: nat, b: nat, a: nat)
    requires 0 < n && (n - 1) * b < a <= n * b
    ensures 0 < a - b * (n - 1) <= b
  {
    assert n * b == (n - 1) * b + b;
    assert b * (n - 1) == (n - 1) * b;
  }

  lemma Ceiling(a: nat, b: nat)
    requires 0 < b && 0 < a
    ensures var n := CeilDiv(a, b); 0 < n && (n - 1) * b < a <= n * b
  {
    var n, r := (a + b - 1) / b, (a + b - 1) % b;
    assert a + b - 1 == n * b + r;
    assert (n - 1) * b == n * b - b;
    Positive(n, b);
  }

  lemma Positive(n: int, b: nat)
    requires n * b > 0
    ensures n > 0
  {
  }

  // tiles, the tiles dispatched so far, is not in the source.
  datatype State = State(phase: Phase, fill: int, compute: int, out: nat, h: nat, w: nat, b: nat, adds: nat, macs: nat,
                         tiles: seq<(nat, nat, nat)>)

  function SetMatrix(): State { State(Ready, 0, 0, 0, 0, 0, 0, 0, 0, []) }

  function Times(a: nat, b: nat): nat { a * b }

  function Dispatch(d: Dims, s: State): State
    requires d.Valid()
  {
    var n := d.BatchAt(s.b);
    var cycles := n + d.height + d.width - 1;
    s.(phase := Filling, fill := 0, compute := cycles, macs := s.macs + Times(Times(cycles, d.height), d.width),
       adds := s.adds + Times(n, d.width),
       tiles := s.tiles + [(s.b, s.w, s.h)])
  }

  function Next(d: Dims, s: State): State
    requires d.Valid()
  {
    if s.h + 1 != d.NumH() then s.(h := s.h + 1)
    else if s.w + 1 != d.NumW() then s.(h := 0, w := s.w + 1)
    else if s.b + 1 != d.NumBatch() then s.(h := 0, w := 0, b := s.b + 1)
    else s.(h := 0, w := 0, b := s.b + 1, phase := Done)
  }

  function GenDataFlow(d: Dims, s: State): State
    requires d.Valid()
  {
    if s.h == 0 && s.out + d.RowBytes() > d.cap then s.(phase := OutSync)
    else Next(d, Dispatch(d, if s.h == 0 then s.(out := s.out + d.RowBytes()) else s))
  }

  function ClockTick(d: Dims, s: State): State
    requires d.Valid()
  {
    match s.phase
    case Filling => s.(fill := s.fill - 1, phase := if s.fill - 1 <= 0 then Computing else Filling)
    case Computing => s.(compute := s.compute - 1, phase := if s.compute - 1 == 0 then Ready else Computing)
    case Ready => GenDataFlow(d, s)
    case OutSync => s
    case Done => s
    case Idle => s
  }

  function SyncOutput(s: State): State { s.(phase := Ready, out := 0) }

  // ------------------------------------------------------------ how far the walk is

  function Lines(d: Dims, b: nat, w: nat): nat
    requires d.Valid()
  {
    b * d.NumW() + w
  }

  function Pos(d: Dims, b: nat, w: nat, h: nat): nat
    requires d.Valid()
  {
    Lines(d, b, w) * d.NumH() + h
  }

  function Total(d: Dims): nat
    requires d.Valid()
  {
    Pos(d, d.NumBatch(), 0, 0)
  }

  predicate InRange(d: Dims, t: (nat, nat, nat))
    requires d.Valid()
  {
    t.0 < d.NumBatch() && t.1 < d.NumW() && t.2 < d.NumH()
  }

  // The counters name a tile, or the walk is over.
  predicate Placed(d: Dims, s: State)
    requires d.Valid()
  {
    if s.phase == Done then s.b == d.NumBatch() && s.w == 0 && s.h == 0 else InRange(d, (s.b, s.w, s.h))
  }

  // One tile after another: the number of tiles before grows by one.
  lemma PosNext(d: Dims, s: State)
    requires d.Valid() && s.phase != Done && Placed(d, s)
    ensures var t := Next(d, s); Placed(d, t) && Pos(d, t.b, t.w, t.h) == Pos(d, s.b, s.w, s.h) + 1
  {
    var nH, nW := d.NumH(), d.NumW();
    Distribute(Lines(d, s.b, s.w), 1, nH);
    Distribute(s.b, 1, nW);
  }

  lemma Below(a: nat, b: nat, c: nat)
    requires a < b
    ensures a * c + c <= b * c
  {
    Distribute(a, 1, c);
    Distribute(a + 1, b - a - 1, c);
  }

  // Different tiles have different positions.
  lemma PosUnique(d: Dims, t: (nat, nat, nat), u: (nat, nat, nat))
    requires d.Valid() && InRange(d, t) && InRange(d, u)
    ensures Pos(d, t.0, t.1, t.2) == Pos(d, u.0, u.1, u.2) ==> t == u
    ensures Pos(d, t.0, t.1, t.2) < Total(d)
  {
    LinesUnique(d, t, u);
    var p, q, n := Lines(d, t.0, t.1), Lines(d, u.0, u.1), d.NumH();
    if p < q {
      Below(p, q, n);
    }
    if q < p {
      Below(q, p, n);
    }
    Below(p, Lines(d, d.NumBatch(), 0), n);
  }

  lemma LinesUnique(d: Dims, t: (nat, nat, nat), u: (nat, nat, nat))
    requires d.Valid() && InRange(d, t) && InRange(d, u)
    ensures Lines(d, t.0, t.1) == Lines(d, u.0, u.1) ==> t.0 == u.0 && t.1 == u.1
    ensures Lines(d, t.0, t.1) < Lines(d, d.NumBatch(), 0)
  {
    var n := d.NumW();
    if t.0 < u.0 {
      Below(t.0, u.0, n);
    }
    if u.0 < t.0 {
      Below(u.0, t.0, n);
    }
    Below(t.0, d.NumBatch(), n);
  }

  // ------------------------------------------------------------ operation totals

  // The rows of a in the first b batches.
  function RowsBefore(d: Dims, b: nat): nat
    requires d.Valid()
  {
    if b == 0 then 0 else RowsBefore(d, b - 1) + d.BatchAt(b - 1)
  }

  lemma {:induction false} RowsBeforeIs(d: Dims, b: nat)
    requires d.Valid() && b <= d.NumBatch()
    ensures RowsBefore(d, b) == if b == d.NumBatch() then d.aH else b * d.Batch()
  {
    if b > 0 {
      RowsBeforeIs(d, b - 1);
      Distribute(b - 1, 1, d.Batch());
    }
  }

  // The tiles of one batch, and those of them before (w, h).
  function PerBatch(d: Dims): nat
    requires d.Valid()
  {
    Lines(d, 0, d.NumW()) * d.NumH()
  }

  function InBatch(d: Dims, w: nat, h: nat): nat
    requires d.Valid()
  {
    Pos(d, 0, w, h)
  }

  // The batch rows that the tiles before (b, w, h) streamed, all told.
  function Streamed(d: Dims, b: nat, w: nat, h: nat): nat
    requires d.Valid()
  {
    Times(RowsBefore(d, b), PerBatch(d)) + Times(d.BatchAt(b), InBatch(d, w, h))
  }

  lemma TimesMore(a: nat, k: nat, b: nat)
    ensures Times(a + k, b) == Times(a, b) + Times(k, b)
    ensures Times(b, a + 1) == Times(b, a) + b && Times(b, 0) == 0
  {
    Distribute(a, k, b);
    Spread(b, a, 1);
  }

  // Within a batch, and from the last tile of a batch to the next batch.
  lemma InBatchNext(d: Dims, w: nat, h: nat)
    requires d.Valid() && w < d.NumW() && h < d.NumH()
    ensures InBatch(d, w, h + 1) == InBatch(d, w, h) + 1
    ensures h + 1 == d.NumH() ==> InBatch(d, w + 1, 0) == InBatch(d, w, h) + 1
    ensures h + 1 == d.NumH() && w + 1 == d.NumW() ==> InBatch(d, w, h) + 1 == PerBatch(d)
    ensures InBatch(d, 0, 0) == 0
  {
    Distribute(w, 1, d.NumH());
  }

  lemma RowsBeforeNext(d: Dims, b: nat)
    requires d.Valid()
    ensures RowsBefore(d, b + 1) == RowsBefore(d, b) + d.BatchAt(b)
  {
  }

  lemma NextIs(d: Dims, s: State)
    requires d.Valid() && s.phase != Done && Placed(d, s)
    ensures s.w < d.NumW() && s.h < d.NumH() && s.b < d.NumBatch()
    ensures var t := Next(d, s);
            if s.h + 1 < d.NumH() then (t.b, t.w, t.h) == (s.b, s.w, s.h + 1)
            else if s.w + 1 < d.NumW() then (t.b, t.w, t.h) == (s.b, s.w + 1, 0) && s.h + 1 == d.NumH()
            else (t.b, t.w, t.h) == (s.b + 1, 0, 0) && s.h + 1 == d.NumH() && s.w + 1 == d.NumW()
  {
  }

  lemma StreamedNext(d: Dims, s: State)
    requires d.Valid() && s.phase != Done && Placed(d, s)
    ensures var t := Next(d, s); Streamed(d, t.b, t.w, t.h) == Streamed(d, s.b, s.w, s.h) + d.BatchAt(s.b)
  {
    NextIs(d, s);
    InBatchNext(d, s.w, s.h);
    RowsBeforeNext(d, s.b);
    hide PerBatch, InBatch, Times, Next, RowsBefore;
    var n := d.BatchAt(s.b);
    TimesMore(InBatch(d, s.w, s.h), 1, n);
    TimesMore(RowsBefore(d, s.b), n, PerBatch(d));
    TimesMore(0, 0, d.BatchAt(s.b + 1));
  }

  function Macs(d: Dims, rows: nat, tiles: nat): nat
    requires d.Valid()
  {
    Times(rows + Times(tiles, d.height + d.width - 1), Times(d.height, d.width))
  }

  lemma MacsMore(d: Dims, rows: nat, tiles: nat, n: nat)
    requires d.Valid()
    ensures Macs(d, rows + n, tiles + 1) == Macs(d, rows, tiles) + Times(Times(n + d.height + d.width - 1, d.height), d.width)
  {
    var c, a := d.height + d.width - 1, d.height * d.width;
    Distribute(tiles, 1, c);
    Distribute(rows + tiles * c, n + c, a);
    Assoc(n + c, d.height, d.width);
  }

  lemma Assoc(a: nat, b: nat, c: nat)
    ensures a * b * c == a * (b * c)
  {
  }

  // Every dispatched tile is the next one, and the operation counters are what these
  // tiles cost.
  ghost predicate Walked(d: Dims, s: State)
    requires d.Valid()
  {
    && Placed(d, s) && |s.tiles| == Pos(d, s.b, s.w, s.h)
    && forall k :: 0 <= k < |s.tiles| ==> InRange(d, s.tiles[k]) && Pos(d, s.tiles[k].0, s.tiles[k].1, s.tiles[k].2) == k
  }

  predicate Paid(d: Dims, s: State)
    requires d.Valid()
  {
    && s.adds == Times(Streamed(d, s.b, s.w, s.h), d.width)
    && s.macs == Macs(d, Streamed(d, s.b, s.w, s.h), |s.tiles|)
  }

  predicate Timed(d: Dims, s: State) {
    && s.out <= d.cap && (s.phase == Computing ==> 0 < s.compute) && (s.phase == Filling ==> s.fill <= 0 < s.compute)
    && s.phase != Idle && (s.phase == OutSync ==> s.h == 0 && s.out + d.RowBytes() > d.cap)
  }

  ghost predicate Inv(d: Dims, s: State)
    requires d.Valid()
  {
    Walked(d, s) && Paid(d, s) && Timed(d, s)
  }

  lemma NextKeeps(d: Dims, s: State)
    requires d.Valid()
    ensures var t := Next(d, s); t.tiles == s.tiles && t.adds == s.adds && t.macs == s.macs && t.out == s.out
                                 && t.compute == s.compute && t.fill == s.fill && (t.phase == s.phase || t.phase == Done)
  {
  }

  lemma DispatchIs(d: Dims, s: State)
    requires d.Valid()
    ensures var t, n := Dispatch(d, s), d.BatchAt(s.b);
            && t.phase == Filling && t.fill == 0 && t.compute == n + d.height + d.width - 1 > 0 && t.out == s.out
            && t.h == s.h && t.w == s.w && t.b == s.b && t.tiles == s.tiles + [(s.b, s.w, s.h)]
            && t.adds == s.adds + Times(n, d.width)
            && t.macs == s.macs + Times(Times(n + d.height + d.width - 1, d.height), d.width)
  {
  }

  lemma PlacedOf(d: Dims, s: State)
    requires d.Valid() && Walked(d, s) && s.phase != Done
    ensures InRange(d, (s.b, s.w, s.h)) && Placed(d, s)
  {
  }

  lemma SamePlace(d: Dims, s: State, t: State)
    requires d.Valid() && Placed(d, s) && s.phase != Done && t.phase != Done && t.h == s.h && t.w == s.w && t.b == s.b
    ensures Placed(d, t) && Next(d, t).b == Next(d, s).b && Next(d, t).w == Next(d, s).w && Next(d, t).h == Next(d, s).h
  {
  }

  lemma DispatchWalked(d: Dims, s: State)
    requires d.Valid() && Walked(d, s) && s.phase != Done
    ensures Walked(d, Next(d, Dispatch(d, s)))
  {
    hide Placed, InRange, Pos, Next, Dispatch;
    PlacedOf(d, s);
    DispatchIs(d, s);
    var t := Dispatch(d, s);
    SamePlace(d, s, t);
    PosNext(d, t);
    NextKeeps(d, t);
  }

  lemma DispatchPaid(d: Dims, s: State)
    requires d.Valid() && Walked(d, s) && Paid(d, s) && s.phase != Done
    ensures Paid(d, Next(d, Dispatch(d, s)))
  {
    hide Placed, InRange, Pos, Next, Dispatch, Streamed, Macs, Times;
    PlacedOf(d, s);
    DispatchIs(d, s);
    var t := Dispatch(d, s);
    SamePlace(d, s, t);
    StreamedNext(d, t);
    NextKeeps(d, t);
    var rows, n := Streamed(d, s.b, s.w, s.h), d.BatchAt(s.b);
    TimesMore(rows, n, d.width);
    MacsMore(d, rows, |s.tiles|, n);
  }

  lemma GenInv(d: Dims, s: State)
    requires d.Valid() && Inv(d, s) && s.phase == Ready
    ensures Inv(d, GenDataFlow(d, s))
  {
    hide Walked, Paid, Next, Dispatch;
    var s1 := if s.h == 0 then s.(out := s.out + d.RowBytes()) else s;
    Elsewhere(d, s, s.(phase := OutSync));
    Elsewhere(d, s, s1);
    DispatchWalked(d, s1);
    DispatchPaid(d, s1);
    DispatchIs(d, s1);
    NextKeeps(d, Dispatch(d, s1));
  }

  // What does not touch the counters keeps what holds of them.
  lemma Elsewhere(d: Dims, s: State, t: State)
    requires d.Valid() && s.phase != Done && t.phase != Done
    requires t.h == s.h && t.w == s.w && t.b == s.b && t.tiles == s.tiles && t.adds == s.adds && t.macs == s.macs
    ensures Walked(d, s) <==> Walked(d, t)
    ensures Paid(d, s) <==> Paid(d, t)
  {
    hide Pos, Streamed, Macs, Times, InRange;
  }

  lemma TickInv(d: Dims, s: State)
    requires d.Valid() && Inv(d, s)
    ensures Inv(d, ClockTick(d, s))
  {
    hide Walked, Paid, GenDataFlow;
    match s.phase {
      case Filling => Elsewhere(d, s, ClockTick(d, s));
      case Computing => Elsewhere(d, s, ClockTick(d, s));
      case Ready => GenInv(d, s);
      case OutSync =>
      case Done =>
      case Idle =>
    }
  }

  lemma SyncInv(d: Dims, s: State)
    requires d.Valid() && Inv(d, s) && s.phase == OutSync
    ensures Inv(d, SyncOutput(s))
  {
    hide Walked, Paid;
    Elsewhere(d, s, SyncOutput(s));
  }

  lemma StartInv(d: Dims)
    requires d.Valid()
    ensures Inv(d, SetMatrix())
  {
  }

  // ------------------------------------------------------------ the whole walk

  // The output buffer is emptied whenever the walker waits for that.
  function Advance(d: Dims, s: State): State
    requires d.Valid()
  {
    if s.phase == OutSync then SyncOutput(s) else ClockTick(d, s)
  }

  // Each step lowers this: the tiles to come, and how far the phase is.
  function TileCost(d: Dims): nat
    requires d.Valid()
  {
    d.Batch() + d.height + d.width + 5
  }

  function Waiting(s: State): nat {
    match s.phase
    case Filling => if s.compute > 0 then s.compute + 4 else 0
    case Computing => if s.compute > 0 then s.compute + 3 else 0
    case Ready => if s.out == 0 then 1 else 3
    case OutSync => 2
    case Done => 0
    case Idle => 0
  }

  function Measure(d: Dims, s: State): nat
    requires d.Valid()
  {
    Times(if |s.tiles| < Total(d) then Total(d) - |s.tiles| else 0, TileCost(d)) + Waiting(s)
  }

  lemma TilesBound(d: Dims, s: State)
    requires d.Valid() && Walked(d, s)
    ensures if s.phase == Done then |s.tiles| == Total(d) else |s.tiles| < Total(d)
  {
    if s.phase != Done {
      PosUnique(d, (s.b, s.w, s.h), (s.b, s.w, s.h));
    }
    hide Pos;
  }

  lemma BatchBound(d: Dims, b: nat)
    requires d.Valid()
    ensures d.BatchAt(b) <= d.Batch()
  {
  }

  lemma GenShrinks(d: Dims, s: State)
    requires d.Valid() && Inv(d, s) && s.phase == Ready
    ensures Measure(d, GenDataFlow(d, s)) < Measure(d, s)
  {
    hide Walked, Paid, Next, Dispatch, Total, Times;
    GenInv(d, s);
    TilesBound(d, s);
    TilesBound(d, GenDataFlow(d, s));
    BatchBound(d, s.b);
    var s1 := if s.h == 0 then s.(out := s.out + d.RowBytes()) else s;
    DispatchIs(d, s1);
    NextKeeps(d, Dispatch(d, s1));
    OneTileLess(Total(d), |s.tiles|, TileCost(d));
  }

  lemma OneTileLess(total: nat, n: nat, c: nat)
    requires n < total
    ensures Times(total - n, c) == Times(total - (n + 1), c) + c && Times(0, c) == 0
  {
  }

  lemma AdvanceShrinks(d: Dims, s: State)
    requires d.Valid() && Inv(d, s) && s.phase != Done
    ensures Inv(d, Advance(d, s)) && Measure(d, Advance(d, s)) < Measure(d, s)
  {
    hide Walked, Paid, GenDataFlow, Total, TileCost, Times;
    match s.phase {
      case Filling => TickInv(d, s);
      case Computing => TickInv(d, s);
      case Ready =>
        TickInv(d, s);
        GenShrinks(d, s);
      case OutSync => SyncInv(d, s);
      case Idle =>
    }
  }

  function Drive(d: Dims, s: State, n: nat): State
    requires d.Valid()
    decreases n
  {
    if n == 0 || s.phase == Done then s else Drive(d, Advance(d, s), n - 1)
  }

  lemma {:induction false} DriveEnds(d: Dims, s: State, n: nat)
    requires d.Valid() && Inv(d, s) && Measure(d, s) <= n
    ensures Inv(d, Drive(d, s, n)) && Drive(d, s, n).phase == Done
    decreases n
  {
    hide Inv, Advance, Measure;
    if s.phase != Done {
      AdvanceShrinks(d, s);
      DriveEnds(d, Advance(d, s), n - 1);
    }
  }

  lemma TotalIs(d: Dims)
    requires d.Valid()
    ensures PerBatch(d) == Times(d.NumW(), d.NumH()) && Total(d) == Times(d.NumBatch(), PerBatch(d))
  {
    Assoc(d.NumBatch(), d.NumW(), d.NumH());
  }

  lemma DoneTiles(d: Dims, s: State)
    requires d.Valid() && Inv(d, s) && s.phase == Done
    ensures |s.tiles| == Total(d)
    ensures forall b: nat, w: nat, h: nat :: InRange(d, (b, w, h)) ==>
              Pos(d, b, w, h) < |s.tiles| && s.tiles[Pos(d, b, w, h)] == (b, w, h)
  {
    TilesBound(d, s);
    hide Pos, Total, InRange;
    forall b: nat, w: nat, h: nat | InRange(d, (b, w, h))
      ensures Pos(d, b, w, h) < |s.tiles| && s.tiles[Pos(d, b, w, h)] == (b, w, h)
    {
      PosUnique(d, (b, w, h), (b, w, h));
      PosUnique(d, (b, w, h), s.tiles[Pos(d, b, w, h)]);
    }
  }

  lemma StreamedAll(d: Dims)
    requires d.Valid()
    ensures Streamed(d, d.NumBatch(), 0, 0) == Times(d.aH, PerBatch(d))
  {
    RowsBeforeIs(d, d.NumBatch());
    InBatchNext(d, 0, 0);
    hide PerBatch, InBatch, Times, RowsBefore;
    TimesMore(0, 0, d.BatchAt(d.NumBatch()));
  }

  lemma Ordered(a: nat, b: nat, c: nat)
    ensures Times(Times(a, b), c) == Times(Times(a, c), b)
  {
    Assoc(a, b, c);
    Assoc(a, c, b);
  }

  lemma DoneOps(d: Dims, s: State)
    requires d.Valid() && Inv(d, s) && s.phase == Done
    ensures s.adds == Times(Times(d.aH, d.width), PerBatch(d))
    ensures s.macs == Times(Times(d.aH + Times(d.NumBatch(), d.height + d.width - 1), Times(d.height, d.width)), PerBatch(d))
  {
    StreamedAll(d);
    TilesBound(d, s);
    TotalIs(d);
    hide Streamed, PerBatch, Total, Times;
    var c, n := d.height + d.width - 1, PerBatch(d);
    Ordered(d.aH, n, d.width);
    Ordered(d.NumBatch(), n, c);
    TimesMore(d.aH, Times(d.NumBatch(), c), n);
    Ordered(d.aH + Times(d.NumBatch(), c), n, Times(d.height, d.width));
  }

  // The walk ends, having dispatched each tile of each batch exactly once, the rows
  // innermost; and the operation counters are exactly what that costs.
  lemma WalkComplete(d: Dims)
    requires d.Valid()
    ensures var s, tiles := Drive(d, SetMatrix(), Measure(d, SetMatrix())), Times(d.NumW(), d.NumH());
            && s.phase == Done && |s.tiles| == Times(d.NumBatch(), tiles)
            && (forall b: nat, w: nat, h: nat :: InRange(d, (b, w, h)) ==>
                  Pos(d, b, w, h) < |s.tiles| && s.tiles[Pos(d, b, w, h)] == (b, w, h))
            && s.adds == Times(Times(d.aH, d.width), tiles)
            && s.macs == Times(Times(d.aH + Times(d.NumBatch(), d.height + d.width - 1), Times(d.height, d.width)), tiles)
  {
    hide *;
    StartInv(d);
    DriveEnds(d, SetMatrix(), Measure(d, SetMatrix()));
    var s := Drive(d, SetMatrix(), Measure(d, SetMatrix()));
    DoneTiles(d, s);
    DoneOps(d, s);
    TotalIs(d);
  }

  // ------------------------------------------------------- waiting for the output

  function Ticks(d: Dims, s: State, n: nat): State
    requires d.Valid()
    decreases n
  {
    if n == 0 then s else Ticks(d, ClockTick(d, s), n - 1)
  }

  // The lines of tiles begun, each of which takes room for one row of output.
  function Begun(d: Dims, s: State): nat
    requires d.Valid()
  {
    Lines(d, s.b, s.w) + if s.h > 0 then 1 else 0
  }

  predicate Unsynced(d: Dims, s: State)
    requires d.Valid()
  {
    s.out == Times(Begun(d, s), d.RowBytes())
  }

  lemma BegunNext(d: Dims, s: State)
    requires d.Valid() && Placed(d, s) && s.phase != Done
    ensures Begun(d, Next(d, s)) == Begun(d, s) + (if s.h == 0 then 1 else 0)
  {
    NextIs(d, s);
    Distribute(s.b, 1, d.NumW());
  }

  lemma GenUnsynced(d: Dims, s: State)
    requires d.Valid() && Inv(d, s) && Unsynced(d, s) && s.phase == Ready
    ensures Unsynced(d, GenDataFlow(d, s))
  {
    PlacedOf(d, s);
    var s1 := if s.h == 0 then s.(out := s.out + d.RowBytes()) else s;
    DispatchIs(d, s1);
    SamePlace(d, s, Dispatch(d, s1));
    BegunNext(d, Dispatch(d, s1));
    NextKeeps(d, Dispatch(d, s1));
    TimesMore(Begun(d, s), 1, d.RowBytes());
    TimesMore(0, 1, d.RowBytes());
    hide Next, Dispatch, Lines, Times, Placed, Walked, Paid;
  }

  lemma TickUnsynced(d: Dims, s: State)
    requires d.Valid() && Inv(d, s) && Unsynced(d, s)
    ensures Inv(d, ClockTick(d, s)) && Unsynced(d, ClockTick(d, s))
  {
    TickInv(d, s);
    hide Inv, GenDataFlow, Lines, Times;
    match s.phase {
      case Ready => GenUnsynced(d, s);
      case Filling =>
      case Computing =>
      case OutSync =>
      case Done =>
      case Idle =>
    }
  }

  predicate Halted(s: State) { s.phase == Done || s.phase == OutSync }

  lemma HaltedStays(d: Dims, s: State)
    requires d.Valid() && Halted(s)
    ensures ClockTick(d, s) == s
  {
  }

  lemma {:induction false} TicksEnd(d: Dims, s: State, n: nat)
    requires d.Valid() && Inv(d, s) && Unsynced(d, s) && (Measure(d, s) <= n || Halted(s))
    ensures Inv(d, Ticks(d, s, n)) && Unsynced(d, Ticks(d, s, n)) && Halted(Ticks(d, s, n))
    decreases n
  {
    hide Inv, Unsynced, Measure, ClockTick;
    if n > 0 {
      TickUnsynced(d, s);
      if Halted(s) {
        HaltedStays(d, s);
      } else {
        AdvanceShrinks(d, s);
      }
      TicksEnd(d, ClockTick(d, s), n - 1);
    } else if !Halted(s) {
      MeasureZero(d, s);
    }
  }

  lemma MeasureZero(d: Dims, s: State)
    requires d.Valid() && Inv(d, s) && Measure(d, s) == 0
    ensures s.phase == Done
  {
    hide Walked, Paid, Total, TileCost;
    if s.phase != Done {
      AdvanceShrinks(d, s);
    }
  }

  // What the output needs in all.
  function AllOutput(d: Dims): nat
    requires d.Valid()
  {
    Times(Lines(d, d.NumBatch(), 0), d.RowBytes())
  }

  lemma EndUnsynced(d: Dims, s: State)
    requires d.Valid() && Inv(d, s) && Unsynced(d, s) && Halted(s)
    ensures s.phase == OutSync <==> AllOutput(d) > d.cap
  {
    if s.phase == OutSync {
      LinesUnique(d, (s.b, s.w, s.h), (s.b, s.w, s.h));
      Below(Lines(d, s.b, s.w), Lines(d, d.NumBatch(), 0), d.RowBytes());
    }
    hide Lines, Paid;
  }

  // Left alone, the walker stops to wait for its output to be emptied exactly when
  // all rows of output, once for each batch and column tile, exceed the buffer.
  lemma WaitsIff(d: Dims, n: nat)
    requires d.Valid() && Measure(d, SetMatrix()) <= n
    ensures Halted(Ticks(d, SetMatrix(), n))
    ensures Ticks(d, SetMatrix(), n).phase == OutSync <==> AllOutput(d) > d.cap
  {
    hide *;
    StartInv(d);
    StartUnsynced(d);
    TicksEnd(d, SetMatrix(), n);
    EndUnsynced(d, Ticks(d, SetMatrix(), n));
  }

  lemma StartUnsynced(d: Dims)
    requires d.Valid()
    ensures Unsynced(d, SetMatrix())
  {
  }
}
