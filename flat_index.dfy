/**
 * Row-major placement of a rows-by-width table in one flat buffer: entry i
 * of row r sits at r * width + i. Both the sample buffer of the C glue
 * library (channel-major) and the chain reader of the API header
 * (chain-major) use it.
 */
module FlatIndex {

  function Index(r: nat, i: nat, width: nat): nat
  {
    r * width + i
  }

  lemma MulDistrib(r: nat, n: nat)
    ensures (r + 1) * n == r * n + n
  {
  }

  lemma MulMonotone(a: nat, b: nat, n: nat)
    requires a <= b
    ensures a * n <= b * n
  {
  }

  /** Every entry of row r comes before the first entry of any later row. */
  lemma RowBefore(r: nat, i: nat, r': nat, width: nat)
    requires r < r' && i < width
    ensures Index(r, i, width) < r' * width
  {
    MulDistrib(r, width);
    MulMonotone(r + 1, r', width);
  }

  /** Every entry of a rows-by-width table lies inside a buffer of rows * width places. */
  lemma IndexInRange(r: nat, i: nat, rows: nat, width: nat)
    requires r < rows && i < width
    ensures Index(r, i, width) < rows * width
  {
    RowBefore(r, i, rows, width);
  }

  /** No two entries share a place. */
  lemma IndexInjective(r: nat, i: nat, r': nat, i': nat, width: nat)
    requires i < width && i' < width
    requires Index(r, i, width) == Index(r', i', width)
    ensures r == r' && i == i'
  {
    if r < r' {
      RowBefore(r, i, r', width);
    } else if r' < r {
      RowBefore(r', i', r, width);
    }
  }

  /** Every place of the buffer holds an entry: place j is entry j % width of row j / width. */
  lemma IndexOnto(j: nat, rows: nat, width: nat)
    requires width > 0 && j < rows * width
    ensures j / width < rows && j % width < width && Index(j / width, j % width, width) == j
  {
    if rows <= j / width {
      MulMonotone(rows, j / width, width);
      assert false;
    }
  }

  /** IndexInRange and IndexInjective for every entry at once. */
  lemma IndexLayout(rows: nat, width: nat)
    ensures forall r: nat, i: nat :: r < rows && i < width ==> Index(r, i, width) < rows * width
    ensures forall r: nat, i: nat, r': nat, i': nat :: i < width && i' < width && Index(r, i, width) == Index(r', i', width) ==> r == r' && i == i'
  {
    forall r: nat, i: nat | r < rows && i < width ensures Index(r, i, width) < rows * width {
      IndexInRange(r, i, rows, width);
    }
    forall r: nat, i: nat, r': nat, i': nat | i < width && i' < width && Index(r, i, width) == Index(r', i', width)
      ensures r == r' && i == i'
    {
      IndexInjective(r, i, r', i', width);
    }
  }
}
