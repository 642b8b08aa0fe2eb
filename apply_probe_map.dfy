/**
 * ApplyProbeMap (ApplyProbeMap.cs): reorders the rows of every frame so
 * that, within each block of eight rows, the even input rows come first and
 * the odd ones after them. A frame is an n_rows-by-n_cols matrix stored row
 * by row; its values are copied, never computed, so they are kept as reals.
 */
module ProbeMap {
  import opened Wrappers
  import Flat = FlatIndex

  /** The rows of one block of the map. */
  const BlockRows: nat := 8

  /** The defaults the constructor sets. */
  const DefaultRows: int := 1440
  const DefaultCols: int := 500

  /** Output row r + k of a block comes from input row r + SourceOffset(k). */
  function SourceOffset(k: nat): (m: nat)
    requires k < BlockRows
    ensures m < BlockRows
  {
    if k < 4 then 2 * k else 2 * (k - 4) + 1
  }

  /** Input row r + m of a block goes to output row r + TargetOffset(m). */
  function TargetOffset(m: nat): (k: nat)
    requires m < BlockRows
    ensures k < BlockRows
  {
    if m % 2 == 0 then m / 2 else 4 + m / 2
  }

  /** Within a block the map is a bijection: TargetOffset undoes SourceOffset and the other way round. */
  lemma OffsetBijection(k: nat)
    requires k < BlockRows
    ensures TargetOffset(SourceOffset(k)) == k
    ensures SourceOffset(TargetOffset(k)) == k
  {
  }

  /** The first and the last row of a block stay where they are. */
  lemma OffsetFixedPoints()
    ensures SourceOffset(0) == 0 && SourceOffset(BlockRows - 1) == BlockRows - 1
    ensures forall k :: 0 < k < BlockRows - 1 ==> SourceOffset(k) != k
  {
  }

  /** The start of the block a row is in. */
  function BlockStart(row: nat): nat
  {
    row - row % BlockRows
  }

  /** The input row that output row `row` is copied from. */
  function SourceRow(row: nat): nat
  {
    BlockStart(row) + SourceOffset(row % BlockRows)
  }

  /** The output row that input row `row` is copied to. */
  function TargetRow(row: nat): nat
  {
    BlockStart(row) + TargetOffset(row % BlockRows)
  }

  /** Where the value of output cell (row, c) is read from. */
  function SourceIndex(row: nat, c: nat, nCols: nat): nat
  {
    Flat.Index(SourceRow(row), c, nCols)
  }

  /** Where the value of input cell (row, c) is written to. */
  function TargetIndex(row: nat, c: nat, nCols: nat): nat
  {
    Flat.Index(TargetRow(row), c, nCols)
  }

  /** A block start plus an offset below 8 lies in that block. */
  lemma InBlock(start: nat, k: nat)
    requires start % BlockRows == 0 && k < BlockRows
    ensures BlockStart(start + k) == start && (start + k) % BlockRows == k
  {
  }

  /**
   * On rows 0 .. n_rows - 1, with n_rows a multiple of 8, SourceRow and
   * TargetRow stay in range and undo each other: every input row is copied
   * to exactly one output row, and every output row from exactly one input row.
   */
  lemma RowBijection(nRows: nat, row: nat)
    requires nRows % BlockRows == 0 && row < nRows
    ensures SourceRow(row) < nRows && TargetRow(row) < nRows
    ensures TargetRow(SourceRow(row)) == row && SourceRow(TargetRow(row)) == row
  {
    var start := BlockStart(row);
    var k := row % BlockRows;
    assert start % BlockRows == 0 && start + BlockRows <= nRows;
    InBlock(start, SourceOffset(k));
    InBlock(start, TargetOffset(k));
    OffsetBijection(k);
  }

  /** No two output rows are copied from the same input row. */
  lemma SourceRowInjective(nRows: nat, row: nat, row': nat)
    requires nRows % BlockRows == 0 && row < nRows && row' < nRows
    requires SourceRow(row) == SourceRow(row')
    ensures row == row'
  {
    RowBijection(nRows, row);
    RowBijection(nRows, row');
  }

  /** A frame as its rows: row `row` holds cells row * n_cols .. row * n_cols + n_cols - 1. */
  ghost function RowsOf(a: seq<real>, nRows: nat, nCols: nat): (rows: seq<seq<real>>)
    requires |a| >= nRows * nCols
    ensures |rows| == nRows && forall row :: 0 <= row < nRows ==> |rows[row]| == nCols
  {
    seq(nRows, row requires 0 <= row < nRows =>
      seq(nCols, c requires 0 <= c < nCols => Flat.IndexInRange(row, c, nRows, nCols); a[Flat.Index(row, c, nCols)]))
  }

  /** Cell c of row `row` is element row * n_cols + c of the frame. */
  lemma RowsOfCells(a: seq<real>, nRows: nat, nCols: nat)
    requires |a| >= nRows * nCols
    ensures forall row: nat, c: nat :: row < nRows && c < nCols ==>
      Flat.Index(row, c, nCols) < |a| && RowsOf(a, nRows, nCols)[row][c] == a[Flat.Index(row, c, nCols)]
  {
    forall row: nat, c: nat | row < nRows && c < nCols ensures Flat.Index(row, c, nCols) < |a| {
      Flat.IndexInRange(row, c, nRows, nCols);
    }
  }

  /** The rows determine a frame of n_rows * n_cols cells completely. */
  lemma RowsOfInjective(a: seq<real>, b: seq<real>, nRows: nat, nCols: nat)
    requires |a| == |b| == nRows * nCols
    requires RowsOf(a, nRows, nCols) == RowsOf(b, nRows, nCols)
    ensures a == b
  {
    RowsOfCells(a, nRows, nCols);
    RowsOfCells(b, nRows, nCols);
    forall j | 0 <= j < |a| ensures a[j] == b[j] {
      Flat.IndexOnto(j, nRows, nCols);
      assert RowsOf(a, nRows, nCols)[j / nCols][j % nCols] == RowsOf(b, nRows, nCols)[j / nCols][j % nCols];
    }
  }

  /** A frame after the map: output row `row` is input row SourceRow(row). */
  ghost function MappedRows(input: seq<real>, nRows: nat, nCols: nat): (out: seq<seq<real>>)
    requires nRows % BlockRows == 0 && |input| >= nRows * nCols
    ensures |out| == nRows
  {
    var rows := RowsOf(input, nRows, nCols);
    seq(nRows, row requires 0 <= row < nRows => RowBijection(nRows, row); rows[SourceRow(row)])
  }

  /** Cell by cell: output cell (row, c) holds input element SourceRow(row) * n_cols + c. */
  lemma MappedCells(input: seq<real>, nRows: nat, nCols: nat)
    requires nRows % BlockRows == 0 && |input| >= nRows * nCols
    ensures forall row: nat, c: nat :: row < nRows && c < nCols ==>
      SourceIndex(row, c, nCols) < |input| && c < |MappedRows(input, nRows, nCols)[row]| &&
      MappedRows(input, nRows, nCols)[row][c] == input[SourceIndex(row, c, nCols)]
  {
    RowsOfCells(input, nRows, nCols);
    forall row: nat, c: nat | row < nRows && c < nCols
      ensures SourceIndex(row, c, nCols) < |input| && c < |MappedRows(input, nRows, nCols)[row]| &&
        MappedRows(input, nRows, nCols)[row][c] == input[SourceIndex(row, c, nCols)]
    {
      RowBijection(nRows, row);
      var rows := RowsOf(input, nRows, nCols);
      assert MappedRows(input, nRows, nCols)[row] == rows[SourceRow(row)];
      assert rows[SourceRow(row)][c] == input[Flat.Index(SourceRow(row), c, nCols)];
    }
  }

  /** Each input row reappears unchanged as output row TargetRow of it: no value is lost, duplicated or computed. */
  lemma MappedKeepsRows(input: seq<real>, nRows: nat, nCols: nat)
    requires nRows % BlockRows == 0 && |input| >= nRows * nCols
    ensures forall row :: 0 <= row < nRows ==>
      TargetRow(row) < nRows && MappedRows(input, nRows, nCols)[TargetRow(row)] == RowsOf(input, nRows, nCols)[row]
  {
    forall row | 0 <= row < nRows
      ensures TargetRow(row) < nRows && MappedRows(input, nRows, nCols)[TargetRow(row)] == RowsOf(input, nRows, nCols)[row]
    {
      RowBijection(nRows, row);
    }
  }

  /**
   * One copy loop of Process: row srcRow of the input becomes row dstRow of
   * the output; no other row changes, and neither do the cells of a larger
   * output beyond its first nRows * nCols.
   */
  method CopyRow(output: array<real>, dstRow: nat, input: seq<real>, srcRow: nat, nRows: nat, nCols: nat)
    requires output.Length >= nRows * nCols && |input| >= nRows * nCols
    requires dstRow < nRows && srcRow < nRows
    modifies output
    ensures RowsOf(output[..], nRows, nCols) == old(RowsOf(output[..], nRows, nCols))[dstRow := RowsOf(input, nRows, nCols)[srcRow]]
    ensures forall j :: nRows * nCols <= j < output.Length ==> output[j] == old(output[j])
  {
    ghost var before := RowsOf(output[..], nRows, nCols);
    ghost var source := RowsOf(input, nRows, nCols)[srcRow];
    RowsOfCells(output[..], nRows, nCols);
    RowsOfCells(input, nRows, nCols);
    for c := 0 to nCols
      invariant forall j :: nRows * nCols <= j < output.Length ==> output[j] == old(output[j])
      invariant forall c': nat :: c' < c ==>
        Flat.Index(dstRow, c', nCols) < output.Length && output[Flat.Index(dstRow, c', nCols)] == source[c']
      invariant forall row: nat, c': nat :: row < nRows && row != dstRow && c' < nCols ==>
        Flat.Index(row, c', nCols) < output.Length && output[Flat.Index(row, c', nCols)] == before[row][c']
    {
      Flat.IndexInRange(dstRow, c, nRows, nCols);
      Flat.IndexInRange(srcRow, c, nRows, nCols);
      forall row: nat, c': nat | row < nRows && row != dstRow && c' < nCols
        ensures Flat.Index(row, c', nCols) != Flat.Index(dstRow, c, nCols)
      {
        if Flat.Index(row, c', nCols) == Flat.Index(dstRow, c, nCols) {
          Flat.IndexInjective(row, c', dstRow, c, nCols);
        }
      }
      output[Flat.Index(dstRow, c, nCols)] := input[Flat.Index(srcRow, c, nCols)];
    }
    ghost var after := RowsOf(output[..], nRows, nCols);
    RowsOfCells(output[..], nRows, nCols);
    forall row | 0 <= row < nRows ensures after[row] == before[dstRow := source][row] {
      if row == dstRow {
        assert forall c :: 0 <= c < nCols ==> after[row][c] == source[c];
      } else {
        assert forall c :: 0 <= c < nCols ==> after[row][c] == before[row][c];
      }
    }
  }

  class ApplyProbeMap {
    var nRows: int
    var nCols: int
    var frameCount: int
    var output: array?<real>

    /** frame_count is a C# int: it stays in 32-bit range, and once it is non-zero an output frame exists. */
    ghost predicate Valid()
      reads this
    {
      -0x8000_0000 <= frameCount < 0x8000_0000 && (frameCount != 0 ==> output != null)
    }

    /** The defaults: 1440 rows, 500 columns, no frame seen. */
    constructor ()
      ensures Valid() && nRows == DefaultRows && nCols == DefaultCols && frameCount == 0 && output == null
    {
      nRows, nCols := DefaultRows, DefaultCols;
      frameCount, output := 0, null;
    }

    /** frame_count++ on a C# int, which wraps around in an unchecked context. */
    static function NextFrameCount(f: int): (g: int)
      requires -0x8000_0000 <= f < 0x8000_0000
      ensures -0x8000_0000 <= g < 0x8000_0000
      ensures g == if f + 1 == 0x8000_0000 then -0x8000_0000 else f + 1
    {
      if f == 0x7fff_ffff then -0x8000_0000 else f + 1
    }

    /**
     * The frame properties allow Process's selector to run without an index
     * error: the input, and on later frames the output matrix kept from an
     * earlier frame, hold at least n_rows * n_cols cells. n_rows or n_cols
     * may have changed since that matrix was allocated.
     */
    predicate Fits(input: seq<real>)
      requires Valid() && 0 <= nRows && 0 <= nCols
      reads this
    {
      |input| >= nRows * nCols && (frameCount == 0 || output.Length >= nRows * nCols)
    }

    /**
     * The selector of Process, for one frame: on the first frame the output
     * matrix is allocated, on later frames the one kept from before is
     * overwritten, and it then holds the mapped frame in its first
     * n_rows * n_cols cells. A kept matrix may be larger than that after
     * n_rows or n_cols changed; its other cells keep their values. When a
     * matrix is too small, the indexer's out-of-range error ends the call
     * (None) before frame_count is incremented. n_rows must be a multiple of 8.
     */
    method ProcessFrame(input: seq<real>) returns (result: Option<array<real>>)
      requires Valid() && 0 <= nRows && 0 <= nCols && nRows % BlockRows == 0
      modifies this, output
      ensures Valid() && nRows == old(nRows) && nCols == old(nCols)
      ensures result.Some? <==> old(Fits(input))
      ensures result.None? ==> frameCount == old(frameCount)
      ensures result.Some? ==> frameCount == NextFrameCount(old(frameCount)) && result.value == output
      ensures result.Some? && old(frameCount) == 0 ==> fresh(result.value) && result.value.Length == nRows * nCols
      ensures result.Some? && old(frameCount) != 0 ==> (
        && result.value == old(output)
        && forall j :: nRows * nCols <= j < result.value.Length ==> result.value[j] == old(result.value[j]))
      ensures result.Some? ==> (
        && result.value.Length >= nRows * nCols
        && RowsOf(result.value[..], nRows, nCols) == MappedRows(input, nRows, nCols))
    {
      if !Fits(input) {
        return None;
      }
      if frameCount == 0 {
        output := new real[nRows * nCols];
      }
      var out, rows: nat, cols: nat := output, nRows, nCols;
      var r := 0;
      while r < rows
        invariant 0 <= r <= rows && r % BlockRows == 0
        invariant output == out && nRows == rows && nCols == cols && frameCount == old(frameCount)
        invariant out.Length >= rows * cols
        invariant old(frameCount) != 0 ==> (
          && out == old(output)
          && forall j :: rows * cols <= j < out.Length ==> out[j] == old(out[j]))
        invariant forall row :: 0 <= row < r ==> RowsOf(out[..], rows, cols)[row] == MappedRows(input, rows, cols)[row]
      {
        CopyBlock(out, r, input, rows, cols);
        r := r + BlockRows;
      }
      frameCount := NextFrameCount(frameCount);
      result := Some(out);
    }
  }

  /**
   * The eight copy loops of one block, in the order Process runs them:
   * output rows r, r + 4, r + 1, r + 5, r + 2, r + 6, r + 3, r + 7 from
   * input rows r .. r + 7; the rows of other blocks stay as they were.
   */
  method CopyBlock(output: array<real>, r: nat, input: seq<real>, nRows: nat, nCols: nat)
    requires output.Length >= nRows * nCols && |input| >= nRows * nCols
    requires nRows % BlockRows == 0 && r % BlockRows == 0 && r < nRows
    modifies output
    ensures forall row :: 0 <= row < nRows ==>
      RowsOf(output[..], nRows, nCols)[row] ==
        if r <= row < r + BlockRows then MappedRows(input, nRows, nCols)[row] else old(RowsOf(output[..], nRows, nCols))[row]
    ensures forall j :: nRows * nCols <= j < output.Length ==> output[j] == old(output[j])
  {
    assert r + BlockRows <= nRows;
    ghost var before, source := RowsOf(output[..], nRows, nCols), RowsOf(input, nRows, nCols);
    CopyRow(output, r, input, r, nRows, nCols);
    ghost var s1 := RowsOf(output[..], nRows, nCols);
    assert s1 == before[r := source[r]];
    CopyRow(output, r + 4, input, r + 1, nRows, nCols);
    ghost var s2 := RowsOf(output[..], nRows, nCols);
    assert s2 == s1[r + 4 := source[r + 1]];
    CopyRow(output, r + 1, input, r + 2, nRows, nCols);
    ghost var s3 := RowsOf(output[..], nRows, nCols);
    assert s3 == s2[r + 1 := source[r + 2]];
    CopyRow(output, r + 5, input, r + 3, nRows, nCols);
    ghost var s4 := RowsOf(output[..], nRows, nCols);
    assert s4 == s3[r + 5 := source[r + 3]];
    CopyRow(output, r + 2, input, r + 4, nRows, nCols);
    ghost var s5 := RowsOf(output[..], nRows, nCols);
    assert s5 == s4[r + 2 := source[r + 4]];
    CopyRow(output, r + 6, input, r + 5, nRows, nCols);
    ghost var s6 := RowsOf(output[..], nRows, nCols);
    assert s6 == s5[r + 6 := source[r + 5]];
    CopyRow(output, r + 3, input, r + 6, nRows, nCols);
    ghost var s7 := RowsOf(output[..], nRows, nCols);
    assert s7 == s6[r + 3 := source[r + 6]];
    CopyRow(output, r + 7, input, r + 7, nRows, nCols);
    ghost var after := RowsOf(output[..], nRows, nCols);
    assert after == s7[r + 7 := source[r + 7]];
    assert after == BlockCopied(before, source, r);
    BlockCopiedRows(before, source, r);
    MappedBlock(input, nRows, nCols, r);
  }

  /** On the block starting at r, output row r + k is input row r + SourceOffset(k). */
  lemma MappedBlock(input: seq<real>, nRows: nat, nCols: nat, r: nat)
    requires nRows % BlockRows == 0 && |input| >= nRows * nCols
    requires r % BlockRows == 0 && r + BlockRows <= nRows
    ensures forall row :: r <= row < r + BlockRows ==>
      MappedRows(input, nRows, nCols)[row] == RowsOf(input, nRows, nCols)[r + SourceOffset(row - r)]
  {
    forall row | r <= row < r + BlockRows
      ensures MappedRows(input, nRows, nCols)[row] == RowsOf(input, nRows, nCols)[r + SourceOffset(row - r)]
    {
      InBlock(r, row - r);
    }
  }

  /** The rows after the eight copies of a block, one row update per copy loop, in program order. */
  ghost function BlockCopied(before: seq<seq<real>>, source: seq<seq<real>>, r: nat): seq<seq<real>>
    requires r + BlockRows <= |before| && r + BlockRows <= |source|
  {
    before[r := source[r]][r + 4 := source[r + 1]][r + 1 := source[r + 2]][r + 5 := source[r + 3]]
      [r + 2 := source[r + 4]][r + 6 := source[r + 5]][r + 3 := source[r + 6]][r + 7 := source[r + 7]]
  }

  /** Together the eight copies give row r + k of the block from source row r + SourceOffset(k). */
  lemma BlockCopiedRows(before: seq<seq<real>>, source: seq<seq<real>>, r: nat)
    requires r + BlockRows <= |before| && r + BlockRows <= |source|
    ensures |BlockCopied(before, source, r)| == |before|
    ensures forall row :: 0 <= row < |before| ==>
      BlockCopied(before, source, r)[row] == if r <= row < r + BlockRows then source[r + SourceOffset(row - r)] else before[row]
  {
    var after := BlockCopied(before, source, r);
    forall row | 0 <= row < |before|
      ensures after[row] == if r <= row < r + BlockRows then source[r + SourceOffset(row - r)] else before[row]
    {
      if row == r {
      } else if row == r + 1 {
      } else if row == r + 2 {
      } else if row == r + 3 {
      } else if row == r + 4 {
      } else if row == r + 5 {
      } else if row == r + 6 {
      } else if row == r + 7 {
      }
    }
  }
}
