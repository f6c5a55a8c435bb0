// The page layout of edges (hygcn/graph.cpp, EdgeCompress): rows are written as
// pairs of cells, a header before each row and again at the top of each page.
module EdgePages {

  datatype Cell = Int(i: int) | Float(f: real)

  type Page = seq<Cell>

  datatype Layout = Layout(done: seq<Page>, cur: Page)

  function Header(row: int): Page { [Int(row), Int(-1)] }

  function Edge(col: int): Page { [Int(col), Float(0.0)] }

  // One call, with pages of cap cells.
  function FillEdgePage(s: Layout, cap: nat, row: int, col: int, head: bool, over: bool): Layout {
    var s1 := if |s.cur| == cap then Layout(s.done + [s.cur], []) else s;
    var c2 := if s1.cur == [] || head then s1.cur + Header(row) else s1.cur;
    var c3 := if !head then c2 + Edge(col) else c2;
    if over then Layout(s1.done + [c3], []) else Layout(s1.done, c3)
  }

  function FillRow(s: Layout, cap: nat, row: int, cols: seq<int>): Layout {
    if cols == [] then FillEdgePage(s, cap, row, row, true, false)
    else FillEdgePage(FillRow(s, cap, row, cols[..|cols| - 1]), cap, row, cols[|cols| - 1], false, false)
  }

  function FillRows(s: Layout, cap: nat, csr: seq<seq<int>>, start: nat): Layout {
    if csr == [] then s
    else FillRow(FillRows(s, cap, csr[..|csr| - 1], start), cap, start + |csr| - 1, csr[|csr| - 1])
  }

  function GenEdgeLayout(csr: seq<seq<int>>, start: nat, cap: nat): seq<Page> {
    FillEdgePage(FillRows(Layout([], []), cap, csr, start), cap, -1, -1, true, true).done
  }

  // ------------------------------------------------------------------ reading

  datatype Row = Row(id: int, cols: seq<int>)

  function Flat(pages: seq<Page>): Page {
    if pages == [] then [] else Flat(pages[..|pages| - 1]) + pages[|pages| - 1]
  }

  // Read one more pair: a header opens a row, unless it repeats the row being read.
  function ReadPair(rows: seq<Row>, a: Cell, b: Cell): seq<Row> {
    if a.Int? && b == Int(-1) then
      if rows != [] && rows[|rows| - 1].id == a.i then rows else rows + [Row(a.i, [])]
    else if a.Int? && rows != [] then
      rows[|rows| - 1 := rows[|rows| - 1].(cols := rows[|rows| - 1].cols + [a.i])]
    else rows
  }

  function Decode(cells: Page): seq<Row> {
    if |cells| < 2 then [] else ReadPair(Decode(cells[..|cells| - 2]), cells[|cells| - 2], cells[|cells| - 1])
  }

  // What was written so far.
  function Written(s: Layout): Page { Flat(s.done) + s.cur }

  function RowsOf(csr: seq<seq<int>>, start: nat): seq<Row> {
    seq(|csr|, i requires 0 <= i < |csr| => Row(start + i, csr[i]))
  }

  // ----------------------------------------------------------------- lossless

  lemma DecodeHeader(cells: Page, row: int)
    ensures Decode(cells + Header(row)) == ReadPair(Decode(cells), Int(row), Int(-1))
  {
    assert (cells + Header(row))[..|cells|] == cells;
  }

  lemma DecodeEdge(cells: Page, col: int)
    ensures Decode(cells + Edge(col)) == ReadPair(Decode(cells), Int(col), Float(0.0))
  {
    assert (cells + Edge(col))[..|cells|] == cells;
  }

  lemma FlatMore(pages: seq<Page>, page: Page)
    ensures Flat(pages + [page]) == Flat(pages) + page
  {
    assert (pages + [page])[..|pages|] == pages;
  }

  lemma Regroup(a: Page, b: Page, c: Page)
    ensures (a + b) + c == a + (b + c)
  {
  }

  lemma PageTurned(s: Layout)
    ensures Written(Layout(s.done + [s.cur], [])) == Written(s)
  {
    FlatMore(s.done, s.cur);
  }

  // A header adds a header; an edge adds an edge, perhaps after a repeated header.
  lemma WrittenHead(s: Layout, cap: nat, row: int, over: bool)
    ensures Written(FillEdgePage(s, cap, row, row, true, over)) == Written(s) + Header(row)
  {
    var s1 := if |s.cur| == cap then Layout(s.done + [s.cur], []) else s;
    PageTurned(s);
    Regroup(Flat(s1.done), s1.cur, Header(row));
    FlatMore(s1.done, s1.cur + Header(row));
  }

  lemma WrittenEdge(s: Layout, cap: nat, row: int, col: int)
    ensures var w := Written(FillEdgePage(s, cap, row, col, false, false));
            w == Written(s) + Edge(col) || w == (Written(s) + Header(row)) + Edge(col)
  {
    var s1 := if |s.cur| == cap then Layout(s.done + [s.cur], []) else s;
    PageTurned(s);
    Regroup(Flat(s1.done), s1.cur, Edge(col));
    Regroup(Flat(s1.done), Header(row), Edge(col));
  }

  lemma FillRowMore(s: Layout, cap: nat, row: int, cols: seq<int>)
    ensures cols == [] ==> FillRow(s, cap, row, cols) == FillEdgePage(s, cap, row, row, true, false)
    ensures cols != [] ==>
              FillRow(s, cap, row, cols)
              == FillEdgePage(FillRow(s, cap, row, cols[..|cols| - 1]), cap, row, cols[|cols| - 1], false, false)
  {
  }

  lemma ReadNewRow(rows: seq<Row>, row: int)
    requires rows == [] || rows[|rows| - 1].id != row
    ensures ReadPair(rows, Int(row), Int(-1)) == rows + [Row(row, [])]
  {
  }

  lemma ReadSameRow(rows: seq<Row>, row: int, cols: seq<int>)
    ensures ReadPair(rows + [Row(row, cols)], Int(row), Int(-1)) == rows + [Row(row, cols)]
  {
  }

  lemma ReadEdge(rows: seq<Row>, row: int, cols: seq<int>, col: int)
    ensures ReadPair(rows + [Row(row, cols)], Int(col), Float(0.0)) == rows + [Row(row, cols + [col])]
  {
  }

  lemma {:induction false} DecodeRow(s: Layout, cap: nat, row: int, cols: seq<int>)
    requires var rows := Decode(Written(s)); rows == [] || rows[|rows| - 1].id != row
    ensures Decode(Written(FillRow(s, cap, row, cols))) == Decode(Written(s)) + [Row(row, cols)]
  {
    hide *;
    FillRowMore(s, cap, row, cols);
    var rows := Decode(Written(s));
    if cols == [] {
      WrittenHead(s, cap, row, false);
      DecodeHeader(Written(s), row);
      ReadNewRow(rows, row);
    } else {
      var some, col := cols[..|cols| - 1], cols[|cols| - 1];
      var before := FillRow(s, cap, row, some);
      DecodeRow(s, cap, row, some);
      WrittenEdge(before, cap, row, col);
      DecodeHeader(Written(before), row);
      DecodeEdge(Written(before), col);
      DecodeEdge(Written(before) + Header(row), col);
      ReadSameRow(rows, row, some);
      ReadEdge(rows, row, some, col);
      assert some + [col] == cols;
    }
  }

  lemma RowsOfMore(csr: seq<seq<int>>, start: nat)
    requires csr != []
    ensures RowsOf(csr, start) == RowsOf(csr[..|csr| - 1], start) + [Row(start + |csr| - 1, csr[|csr| - 1])]
  {
  }

  lemma FillRowsMore(cap: nat, csr: seq<seq<int>>, start: nat)
    requires csr != []
    ensures FillRows(Layout([], []), cap, csr, start)
         == FillRow(FillRows(Layout([], []), cap, csr[..|csr| - 1], start), cap, start + |csr| - 1, csr[|csr| - 1])
  {
  }

  lemma LastRow(csr: seq<seq<int>>, start: nat, row: int)
    requires row == -1 || row >= start + |csr|
    ensures var rows := RowsOf(csr, start); rows == [] || rows[|rows| - 1].id != row
  {
  }

  lemma NothingWritten(cap: nat, start: nat)
    ensures Decode(Written(FillRows(Layout([], []), cap, [], start))) == RowsOf([], start)
  {
  }

  lemma {:induction false} DecodeRows(cap: nat, csr: seq<seq<int>>, start: nat)
    ensures Decode(Written(FillRows(Layout([], []), cap, csr, start))) == RowsOf(csr, start)
  {
    hide *;
    if csr == [] {
      NothingWritten(cap, start);
    } else {
      var n := |csr| - 1;
      DecodeRows(cap, csr[..n], start);
      LastRow(csr[..n], start, start + n);
      FillRowsMore(cap, csr, start);
      DecodeRow(FillRows(Layout([], []), cap, csr[..n], start), cap, start + n, csr[n]);
      RowsOfMore(csr, start);
    }
  }

  // Whatever the capacity, reading the pages gives back every row, in order, and
  // then the sentinel.
  lemma LayoutLossless(csr: seq<seq<int>>, start: nat, cap: nat)
    ensures Decode(Flat(GenEdgeLayout(csr, start, cap))) == RowsOf(csr, start) + [Row(-1, [])]
  {
    var s := FillRows(Layout([], []), cap, csr, start);
    DecodeRows(cap, csr, start);
    WrittenHead(s, cap, -1, true);
    DecodeHeader(Written(s), -1);
    var out := FillEdgePage(s, cap, -1, -1, true, true);
    assert Written(out) == Flat(out.done) + [] == Flat(out.done);
  }

  // ---------------------------------------------------------------- page sizes

  predicate Headed(page: Page) { |page| >= 2 && page[0].Int? && page[1] == Int(-1) }

  predicate AllFull(pages: seq<Page>, cap: nat) {
    forall i :: 0 <= i < |pages| ==> |pages[i]| == cap && Headed(pages[i])
  }

  predicate Tidy(s: Layout, cap: nat) {
    AllFull(s.done, cap) && |s.cur| <= cap && |s.cur| % 2 == 0 && (s.cur != [] ==> Headed(s.cur))
  }

  lemma FillTidy(s: Layout, cap: nat, row: int, col: int, head: bool)
    requires Tidy(s, cap) && cap % 2 == 0 && 4 <= cap
    ensures Tidy(FillEdgePage(s, cap, row, col, head, false), cap)
  {
  }

  lemma {:induction false} RowTidy(s: Layout, cap: nat, row: int, cols: seq<int>)
    requires Tidy(s, cap) && cap % 2 == 0 && 4 <= cap
    ensures Tidy(FillRow(s, cap, row, cols), cap)
  {
    if cols == [] {
      FillTidy(s, cap, row, row, true);
    } else {
      RowTidy(s, cap, row, cols[..|cols| - 1]);
      FillTidy(FillRow(s, cap, row, cols[..|cols| - 1]), cap, row, cols[|cols| - 1], false);
    }
  }

  lemma {:induction false} RowsTidy(csr: seq<seq<int>>, start: nat, cap: nat)
    requires cap % 2 == 0 && 4 <= cap
    ensures Tidy(FillRows(Layout([], []), cap, csr, start), cap)
  {
    if csr != [] {
      RowsTidy(csr[..|csr| - 1], start, cap);
      RowTidy(FillRows(Layout([], []), cap, csr[..|csr| - 1], start), cap, start + |csr| - 1, csr[|csr| - 1]);
    }
  }

  // Every page but the last is exactly full, the last is no longer, and every page
  // starts with a row header.
  lemma PagesFull(csr: seq<seq<int>>, start: nat, cap: nat)
    requires cap % 2 == 0 && 4 <= cap
    ensures var pages := GenEdgeLayout(csr, start, cap);
            && pages != [] && AllFull(pages[..|pages| - 1], cap)
            && |pages[|pages| - 1]| <= cap && Headed(pages[|pages| - 1])
  {
    var s := FillRows(Layout([], []), cap, csr, start);
    RowsTidy(csr, start, cap);
    FillTidy(s, cap, -1, -1, true);
    var t := FillEdgePage(s, cap, -1, -1, true, false);
    assert GenEdgeLayout(csr, start, cap) == t.done + [t.cur];
    assert (t.done + [t.cur])[..|t.done|] == t.done;
  }

  predicate PagesFit(pages: seq<Page>, cap: nat) { forall i :: 0 <= i < |pages| ==> |pages[i]| <= cap }

  // With an odd capacity no page is ever full.
  lemma {:induction false} OddNeverFull(cap: nat, row: int, cols: seq<int>)
    requires cap % 2 == 1
    ensures var s := FillRow(Layout([], []), cap, row, cols); s.done == [] && |s.cur| == 2 + 2 * |cols|
  {
    if cols != [] {
      OddNeverFull(cap, row, cols[..|cols| - 1]);
    }
  }

  // A graph that overflows a page of any other capacity.
  function Overflowing(cap: nat): seq<seq<int>> { if cap == 0 then [] else [seq(cap, _ => 0)] }

  lemma OnlyRow(cap: nat, cols: seq<int>)
    ensures FillRows(Layout([], []), cap, [cols], 0) == FillRow(Layout([], []), cap, 0, cols)
  {
    assert [cols][..0] == [];
  }

  lemma OddOverflows(cap: nat)
    requires cap % 2 == 1
    ensures !PagesFit(GenEdgeLayout(Overflowing(cap), 0, cap), cap)
  {
    var cols := seq(cap, _ => 0);
    OddNeverFull(cap, 0, cols);
    OnlyRow(cap, cols);
    var pages := GenEdgeLayout(Overflowing(cap), 0, cap);
    assert |pages[0]| == 4 + 2 * cap;
  }

  lemma TwoOverflows()
    ensures !PagesFit(GenEdgeLayout(Overflowing(2), 0, 2), 2)
  {
    var cols := seq(2, _ => 0);
    OnlyRow(2, cols);
    var s0 := FillRow(Layout([], []), 2, 0, cols[..0]);
    var s1 := FillRow(Layout([], []), 2, 0, cols[..1]);
    assert cols[..1][..0] == cols[..0] == [];
    assert s0.cur == Header(0);
    assert |s1.done| == 1 && |s1.cur| == 4;
    var pages := GenEdgeLayout(Overflowing(2), 0, 2);
    assert |pages[1]| > 2;
  }

  lemma ZeroOverflows()
    ensures !PagesFit(GenEdgeLayout(Overflowing(0), 0, 0), 0)
  {
    var pages := GenEdgeLayout([], 0, 0);
    assert |pages[1]| == 2;
  }

  // Pages stay within their capacity, on every graph, exactly when it is even and at
  // least four.
  lemma PagesFitIff(cap: nat)
    ensures (forall csr, start: nat :: PagesFit(GenEdgeLayout(csr, start, cap), cap)) <==> cap % 2 == 0 && 4 <= cap
  {
    if cap % 2 == 0 && 4 <= cap {
      forall csr, start: nat
        ensures PagesFit(GenEdgeLayout(csr, start, cap), cap)
      {
        PagesFull(csr, start, cap);
      }
    } else if cap % 2 == 1 {
      OddOverflows(cap);
    } else if cap == 2 {
      TwoOverflows();
    } else {
      ZeroOverflows();
    }
  }
}
