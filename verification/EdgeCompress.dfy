// The page writer with its loops (hygcn/graph.cpp), proved against EdgePages.
module EdgeCompressClass {
  import opened EdgePages

  class EdgeCompress {
    const pageBytes: nat
    const dataBytes: nat
    const idxBytes: nat
    var current: Page
    var pages: seq<Page>

    ghost predicate Valid()
      reads this
    {
      0 < dataBytes + idxBytes && current == []
    }

    function PageCells(): nat
      requires 0 < dataBytes + idxBytes
    {
      pageBytes / (dataBytes + idxBytes)
    }

    constructor (pageBytes: nat, dataBytes: nat, idxBytes: nat)
      requires 0 < dataBytes + idxBytes
      ensures Valid()
    {
      this.pageBytes, this.dataBytes, this.idxBytes := pageBytes, dataBytes, idxBytes;
      current, pages := [], [];
    }

    method FillEdgePage(row: int, col: int, head: bool, over: bool)
      requires 0 < dataBytes + idxBytes
      modifies this
      ensures Layout(pages, current) == EdgePages.FillEdgePage(old(Layout(pages, current)), PageCells(), row, col, head, over)
    {
      if |current| == PageCells() {
        pages := pages + [current];
        current := [];
      }
      if current == [] || head {
        current := current + Header(row);
      }
      if !head {
        current := current + Edge(col);
      }
      if over {
        pages := pages + [current];
        current := [];
      }
    }

    // Lay out all rows; the pages hold exactly the rows, and are ready for the next graph.
    method GenEdgeLayout(csr: seq<seq<int>>, start: nat) returns (r: seq<Page>)
      requires Valid()
      modifies this
      ensures Valid() && r == pages == EdgePages.GenEdgeLayout(csr, start, PageCells())
      ensures Decode(Flat(r)) == RowsOf(csr, start) + [Row(-1, [])]
    {
      pages := [];
      ghost var cap := PageCells();
      for i := 0 to |csr|
        invariant Layout(pages, current) == FillRows(Layout([], []), cap, csr[..i], start)
      {
        var row := start + i;
        ghost var before := Layout(pages, current);
        FillEdgePage(row, row, true, false);
        for j := 0 to |csr[i]|
          invariant Layout(pages, current) == FillRow(before, cap, row, csr[i][..j])
        {
          FillEdgePage(row, csr[i][j], false, false);
          assert csr[i][..j + 1][..j] == csr[i][..j];
        }
        assert csr[i][..|csr[i]|] == csr[i];
        assert csr[..i + 1][..i] == csr[..i];
      }
      assert csr[..|csr|] == csr;
      LayoutLossless(csr, start, cap);
      FillEdgePage(-1, -1, true, true);
      r := pages;
    }
  }
}
