// The systolic array with its counters (hygcn/hardware/systolic_arr.cpp), proved
// against Systolic.
module SystolicClass {
  import opened Systolic

  class SystolicArray {
    const height: nat
    const width: nat
    const cap: nat
    const data: nat
    var aH: nat
    var wH: nat
    var wW: nat
    var phase: Phase
    var fillCycle: int
    var computeCycle: int
    var out: nat
    var eleBatch: nat
    var eleLastBatch: nat
    var numH: nat
    var numW: nat
    var numBatch: nat
    var h: nat
    var w: nat
    var b: nat
    var adds: nat
    var macs: nat
    // The counters when the matrices were set, and the tiles dispatched since.
    ghost var adds0: nat
    ghost var macs0: nat
    ghost var tiles: seq<(nat, nat, nat)>

    ghost function Sizes(): Dims
      reads this
    {
      Dims(height, width, cap, data, aH, wH, wW)
    }

    ghost function View(): State
      reads this
      requires adds0 <= adds && macs0 <= macs
    {
      State(phase, fillCycle, computeCycle, out, h, w, b, adds - adds0, macs - macs0, tiles)
    }

    // Matrices are set and the tile counts are theirs.
    ghost predicate Set()
      reads this
    {
      && Sizes().Valid() && adds0 <= adds && macs0 <= macs
      && eleBatch == Sizes().Batch() && eleLastBatch == Sizes().LastBatch()
      && numH == Sizes().NumH() && numW == Sizes().NumW() && numBatch == Sizes().NumBatch()
    }

    ghost predicate Valid()
      reads this
    {
      Set() && Inv(Sizes(), View())
    }

    constructor (height: nat, width: nat, cap: nat, data: nat)
      ensures phase == Idle && adds == macs == 0
      ensures this.height == height && this.width == width && this.cap == cap && this.data == data
    {
      this.height, this.width, this.cap, this.data := height, width, cap, data;
      phase, fillCycle, computeCycle, adds, macs := Idle, 0, 0, 0, 0;
    }

    method SetMatrix(aH: nat, wH: nat, wW: nat)
      requires Dims(height, width, cap, data, aH, wH, wW).Valid()
      modifies this
      ensures Valid() && Sizes() == Dims(height, width, cap, data, aH, wH, wW) && View() == Systolic.SetMatrix()
      ensures adds == old(adds) && macs == old(macs)
    {
      ghost var d := Dims(height, width, cap, data, aH, wH, wW);
      StartInv(d);
      SizesAre(d);
      hide *;
      this.aH, this.wH, this.wW := aH, wH, wW;
      SetSizes();
      Restart();
    }

    method Restart()
      modifies `h, `w, `b, `out, `phase, `fillCycle, `computeCycle, `adds0, `macs0, `tiles
      ensures adds0 <= adds && macs0 <= macs && View() == Systolic.SetMatrix()
    {
      h, w, b, out := 0, 0, 0, 0;
      phase, fillCycle, computeCycle := Ready, 0, 0;
      adds0, macs0, tiles := adds, macs, [];
    }

    // How many tiles there are along each side, and how many rows the last batch has.
    method SetSizes()
      requires Sizes().Valid()
      modifies `eleBatch, `eleLastBatch, `numH, `numW, `numBatch
      ensures eleBatch == Sizes().Batch() && eleLastBatch == Sizes().LastBatch()
      ensures numH == Sizes().NumH() && numW == Sizes().NumW() && numBatch == Sizes().NumBatch()
    {
      ghost var d := Sizes();
      SizesAre(d);
      hide d.Batch, d.NumH, d.NumW, d.NumBatch, d.LastBatch, CeilDiv;
      numH := CeilDiv(wH, height);
      numW := CeilDiv(wW, width);
      eleBatch := if cap / (wW * data) < aH then cap / (wW * data) else aH;
      numBatch := CeilDiv(aH, eleBatch);
      eleLastBatch := aH - eleBatch * (numBatch - 1);
    }

    method FillWeight()
      modifies `phase, `fillCycle
      ensures phase == Filling && fillCycle == 0
    {
      phase, fillCycle := Filling, 0;
    }

    method FillInputFIFO(rows: nat)
      requires 0 < height
      modifies `computeCycle, `macs, `adds
      ensures computeCycle == rows + height + width - 1
      ensures macs == old(macs) + Times(Times(rows + height + width - 1, height), width) && adds == old(adds) + Times(rows, width)
    {
      computeCycle := rows + height + width - 1;
      macs := macs + Times(Times(computeCycle, height), width);
      adds := adds + Times(rows, width);
    }

    method NextTile()
      requires Set()
      modifies `h, `w, `b, `phase
      ensures Set() && View() == Next(Sizes(), old(View()))
    {
      hide Sizes().Batch, Sizes().NumH, Sizes().NumW, Sizes().NumBatch, Sizes().LastBatch;
      h := h + 1;
      if h == numH {
        w := w + 1;
        h := 0;
        if w == numW {
          b := b + 1;
          w := 0;
          if b == numBatch {
            phase := Done;
          }
        }
      }
    }

    method DispatchTile()
      requires Set()
      modifies `phase, `fillCycle, `computeCycle, `macs, `adds, `tiles
      ensures Set() && View() == Dispatch(Sizes(), old(View()))
    {
      hide Times, Sizes().Batch, Sizes().NumH, Sizes().NumW, Sizes().NumBatch, Sizes().LastBatch;
      var rows := if b == numBatch - 1 then eleLastBatch else eleBatch;
      FillWeight();
      FillInputFIFO(rows);
      tiles := tiles + [(b, w, h)];
    }

    method GenDataFlow()
      requires Set() && phase == Ready
      modifies `phase, `fillCycle, `computeCycle, `macs, `adds, `out, `h, `w, `b, `tiles
      ensures Set() && View() == Systolic.GenDataFlow(Sizes(), old(View()))
    {
      hide Next, Dispatch, Sizes().Batch, Sizes().NumH, Sizes().NumW, Sizes().NumBatch, Sizes().LastBatch;
      if h == 0 {
        if out + wW * data > cap {
          phase := OutSync;
          return;
        }
        out := out + wW * data;
      }
      DispatchTile();
      NextTile();
    }

    method ClockTick()
      requires Valid()
      modifies `phase, `fillCycle, `computeCycle, `macs, `adds, `out, `h, `w, `b, `tiles
      ensures Valid() && View() == Systolic.ClockTick(Sizes(), old(View()))
    {
      hide Inv, Systolic.GenDataFlow;
      TickInv(Sizes(), View());
      match phase {
        case Filling =>
          fillCycle := fillCycle - 1;
          if fillCycle <= 0 {
            phase := Computing;
          }
        case Computing =>
          computeCycle := computeCycle - 1;
          if computeCycle == 0 {
            phase := Ready;
          }
        case Ready => GenDataFlow();
        case _ =>
      }
    }

    method SyncOutput()
      requires Valid() && phase == OutSync
      modifies `phase, `out
      ensures Valid() && View() == Systolic.SyncOutput(old(View()))
    {
      hide Inv;
      SyncInv(Sizes(), View());
      phase, out := Ready, 0;
    }
  }

  lemma SizesAre(d: Dims)
    requires d.Valid()
    ensures 0 < d.wW * d.data && 0 < d.height && 0 < d.width
    ensures d.Batch() == (if d.cap / (d.wW * d.data) < d.aH then d.cap / (d.wW * d.data) else d.aH)
    ensures 0 < d.Batch() && 0 < d.NumBatch()
    ensures d.NumH() == CeilDiv(d.wH, d.height) && d.NumW() == CeilDiv(d.wW, d.width)
    ensures d.NumBatch() == CeilDiv(d.aH, d.Batch())
    ensures d.LastBatch() == d.aH - d.Batch() * (d.NumBatch() - 1)
  {
  }
}
