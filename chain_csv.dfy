/**
 * The chain CSV helpers of the API header (NeuroseekerAPI.h): copying a
 * fixed-size chain into a vector for the vector writer, writing the six
 * chains of the channel configurations as a table, and reading one chain or
 * six chains back, with the ReadCsvErrorCode outcomes.
 *
 * A file is its contents as a string; a file that cannot be opened is None.
 * The vector overloads of writeChainToCsv and readChainFromCsv are declared
 * but have no body in the header, so what they are given or return is a
 * parameter here.
 */
module ChainCsv {
  import opened Wrappers
  import CP = CsvParser
  import Flat = FlatIndex

  /** NUMBER_OF_CHANNELCONFIGS. */
  const ChainCount: nat := 6

  datatype ReadCsvErrorCode = Success | FileErr | NumberOfElements | OutOfRange | ShiftregChainMemberError
  {
    /** The numeric value of the C enumerator. */
    function Code(): (c: nat)
      ensures c <= 4
      ensures c == 0 <==> this == Success
    {
      match this
      case Success => 0
      case FileErr => 1
      case NumberOfElements => 2
      case OutOfRange => 3
      case ShiftregChainMemberError => 4
    }
  }

  // ---------------------------------------------------------------------
  // Text of bits

  /** A bool written to a stream without std::boolalpha. */
  function BitText(b: bool): (s: string)
    ensures s == "1" <==> b
    ensures |s| == 1 && s[0] != ',' && s[0] != '\n'
  {
    if b then "1" else "0"
  }

  /** Bits written one after the other, each followed by ','. */
  function CellsText(bits: seq<bool>): string
  {
    if |bits| == 0 then "" else BitText(bits[0]) + "," + CellsText(bits[1..])
  }

  /** Appending one bit writes one more cell at the end. */
  lemma {:induction false} CellsTextSnoc(bits: seq<bool>, b: bool)
    ensures CellsText(bits + [b]) == CellsText(bits) + BitText(b) + ","
    decreases |bits|
  {
    if |bits| == 0 {
      assert (bits + [b])[1..] == [];
    } else {
      assert (bits + [b])[1..] == bits[1..] + [b];
      CellsTextSnoc(bits[1..], b);
    }
  }

  /** Writing the cells of a prefix one bit longer writes one more cell. */
  lemma CellsTextPrefix(bits: seq<bool>, j: nat)
    requires j < |bits|
    ensures CellsText(bits[..j + 1]) == CellsText(bits[..j]) + BitText(bits[j]) + ","
  {
    assert bits[..j + 1] == bits[..j] + [bits[j]];
    CellsTextSnoc(bits[..j], bits[j]);
  }

  /** A row of cells never holds a line break. */
  lemma {:induction false} CellsTextOneLine(bits: seq<bool>)
    ensures '\n' !in CellsText(bits)
    decreases |bits|
  {
    if |bits| > 0 {
      CellsTextOneLine(bits[1..]);
    }
  }

  /** The text before the first ',' of a line, as std::getline(ss, element, ',') reads it. */
  function FirstCell(line: string): (cell: string)
    ensures ',' !in cell
    ensures |cell| <= |line| && cell == line[..|cell|]
  {
    if |line| == 0 || line[0] == ',' then "" else [line[0]] + FirstCell(line[1..])
  }

  /** A comma-free prefix ended by ',' or by the end of the line is the first cell. */
  lemma {:induction false} FirstCellIs(cell: string, rest: string, comma: bool)
    requires ',' !in cell
    requires comma || rest == ""
    ensures FirstCell(cell + (if comma then "," else "") + rest) == cell
    decreases |cell|
  {
    var line := cell + (if comma then "," else "") + rest;
    if |cell| > 0 {
      assert line[0] == cell[0] && cell[0] in cell;
      assert line[1..] == cell[1..] + (if comma then "," else "") + rest;
      assert ',' !in cell[1..] by {
        forall k | 0 <= k < |cell[1..]| ensures cell[1..][k] != ',' {
          assert cell[1..][k] == cell[k + 1];
        }
      }
      FirstCellIs(cell[1..], rest, comma);
      assert [cell[0]] + cell[1..] == cell;
    } else if !comma {
      assert line == "";
    }
  }

  /** The bit a line stands for when read: its first cell is exactly "1". */
  predicate LineBit(line: string)
  {
    FirstCell(line) == "1"
  }

  /** The bits the loop of readChainsFromCsv collects from a file: one per complete line. */
  function FileBits(text: string): (v: seq<bool>)
    ensures |v| == |CP.Lines(text)|
    ensures forall k :: 0 <= k < |v| ==> (v[k] <==> LineBit(CP.Lines(text)[k]))
  {
    var lines := CP.Lines(text);
    seq(|lines|, k requires 0 <= k < |lines| => LineBit(lines[k]))
  }

  // ---------------------------------------------------------------------
  // Chains as values

  /** Six chains of n bits each. */
  predicate IsChains(chains: seq<seq<bool>>, n: nat)
  {
    |chains| == ChainCount && forall j :: 0 <= j < ChainCount ==> |chains[j]| == n
  }

  /** The contents of a std::array<std::array<bool, n>, 6>, chain j being row j. */
  function Grid(chains: array2<bool>): (g: seq<seq<bool>>)
    reads chains
    ensures |g| == chains.Length0
    ensures forall j :: 0 <= j < chains.Length0 ==> |g[j]| == chains.Length1
    ensures forall j, i :: 0 <= j < chains.Length0 && 0 <= i < chains.Length1 ==> g[j][i] == chains[j, i]
  {
    seq(chains.Length0, j requires 0 <= j < chains.Length0 reads chains =>
      seq(chains.Length1, i requires 0 <= i < chains.Length1 reads chains => chains[j, i]))
  }

  /** Bit i of every chain, in chain order. */
  function Column(chains: seq<seq<bool>>, i: nat): (col: seq<bool>)
    requires |chains| == ChainCount && forall j :: 0 <= j < ChainCount ==> i < |chains[j]|
    ensures |col| == ChainCount && forall j :: 0 <= j < ChainCount ==> col[j] == chains[j][i]
  {
    seq(ChainCount, j requires 0 <= j < ChainCount => chains[j][i])
  }

  /** The lines writeChainsToCsv writes, without their '\n': line i holds bit i of each chain, each followed by ','. */
  function WrittenRows(chains: seq<seq<bool>>, n: nat): (rows: seq<string>)
    requires IsChains(chains, n)
    ensures |rows| == n && forall i :: 0 <= i < n ==> rows[i] == CellsText(Column(chains, i))
  {
    seq(n, i requires 0 <= i < n => CellsText(Column(chains, i)))
  }

  /** The file writeChainsToCsv writes. */
  function ChainsText(chains: seq<seq<bool>>, n: nat): string
    requires IsChains(chains, n)
  {
    CP.Terminated(WrittenRows(chains, n))
  }

  // ---------------------------------------------------------------------
  // The template functions

  /**
   * writeChainToCsv<n>: the vector of length n handed to the vector
   * writer holds the chain's bits in order.
   */
  method WriteChainToCsv(chain: array<bool>) returns (v: seq<bool>)
    ensures v == chain[..]
  {
    v := seq(chain.Length, _ => false);
    for i := 0 to chain.Length
      invariant |v| == chain.Length
      invariant forall k :: 0 <= k < i ==> v[k] == chain[k]
    {
      v := v[i := chain[i]];
    }
  }

  /** writeChainsToCsv<n>: n lines, line i holding bit i of chains 0..5, each followed by ','. */
  method WriteChainsToCsv(chains: array2<bool>) returns (text: string)
    requires chains.Length0 == ChainCount
    ensures IsChains(Grid(chains), chains.Length1)
    ensures text == ChainsText(Grid(chains), chains.Length1)
  {
    ghost var g := Grid(chains);
    ghost var rows := WrittenRows(g, chains.Length1);
    text := "";
    for i := 0 to chains.Length1
      invariant text == CP.Terminated(rows[..i])
    {
      ghost var start, col := text, Column(g, i);
      for j := 0 to ChainCount
        invariant text == start + CellsText(col[..j])
      {
        CellsTextPrefix(col, j);
        text := text + BitText(chains[j, i]) + ",";
      }
      assert col[..ChainCount] == col;
      TerminatedPrefix(rows, i);
      text := text + "\n";
    }
    assert rows[..chains.Length1] == rows;
  }

  /**
   * readChainFromCsv<n>: feedback and v are the outcome and the vector of
   * the vector reader. A failure is passed on and a vector of the wrong
   * length is refused, both leaving the chain as it was; otherwise the
   * chain takes the n bits.
   */
  method ReadChainFromCsv(chain: array<bool>, feedback: ReadCsvErrorCode, v: seq<bool>) returns (e: ReadCsvErrorCode)
    modifies chain
    ensures e == if feedback != Success then feedback else if |v| != chain.Length then NumberOfElements else Success
    ensures e == Success ==> chain[..] == v
    ensures e != Success ==> chain[..] == old(chain[..])
  {
    if feedback != Success {
      return feedback;
    }
    if |v| != chain.Length {
      return NumberOfElements;
    }
    for i := 0 to chain.Length
      invariant forall k :: 0 <= k < i ==> chain[k] == v[k]
    {
      chain[i] := v[i];
    }
    e := Success;
  }

  /** The element std::getline(ss, element, ',') takes from a line, compared with "1". */
  method ReadLineBit(line: string) returns (bit: bool)
    ensures bit == LineBit(line)
  {
    var hasComma, element, _ := CP.GetLine(line, 0, ',');
    var rest := if hasComma then line[|element| + 1..] else "";
    FirstCellIs(element, rest, hasComma);
    assert line == element + (if hasComma then "," else "") + rest;
    bit := element == "1";
  }

  /** The reading loop of readChainsFromCsv: one bit per line until the end of file. */
  method ReadFileBits(text: string) returns (v: seq<bool>)
    ensures v == FileBits(text)
  {
    v := [];
    ghost var done: seq<string> := [];
    var p := 0;
    var found, line, next := CP.GetLine(text, p, '\n');
    assert text[..p] == [];
    while found
      invariant p <= |text| && '\n' !in line
      invariant found ==> p < next <= |text| && text[..next] == text[..p] + line + "\n"
      invariant !found ==> text == text[..p] + line
      invariant CP.ScanLines(text[..p]) == CP.LineScan(done, "")
      invariant |v| == |done| && forall k :: 0 <= k < |done| ==> (v[k] <==> LineBit(done[k]))
      decreases |text| - p
    {
      CP.ScanLine(text[..p], line);
      var bit := ReadLineBit(line);
      v := v + [bit];
      done := done + [line];
      p := next;
      found, line, next := CP.GetLine(text, p, '\n');
    }
    CP.ScanWithinLine(text[..p], line);
  }

  /**
   * readChainsFromCsv<n>: one bit per complete line, true exactly when the
   * line's first cell is "1"; unless there are exactly 6 n of them the
   * result is READCSV_NUMBER_OF_ELEMENTS and the chains stay as they were,
   * otherwise bit i of chain j is bit j * n + i of the file.
   */
  method ReadChainsFromCsv(file: Option<string>, chains: array2<bool>) returns (e: ReadCsvErrorCode)
    requires chains.Length0 == ChainCount
    modifies chains
    ensures file.None? ==> e == FileErr
    ensures file.Some? ==> e == if |FileBits(file.value)| == ChainCount * chains.Length1 then Success else NumberOfElements
    ensures e == Success ==> forall j, i :: 0 <= j < ChainCount && 0 <= i < chains.Length1 ==>
      Flat.Index(j, i, chains.Length1) < |FileBits(file.value)| && chains[j, i] == FileBits(file.value)[Flat.Index(j, i, chains.Length1)]
    ensures e != Success ==> Grid(chains) == old(Grid(chains))
  {
    if file.None? {
      return FileErr;
    }
    var v := ReadFileBits(file.value);
    var n := chains.Length1;
    if |v| != ChainCount * n {
      return NumberOfElements;
    }
    for j := 0 to ChainCount
      invariant forall j', i :: 0 <= j' < j && 0 <= i < n ==> Flat.Index(j', i, n) < |v| && chains[j', i] == v[Flat.Index(j', i, n)]
    {
      for i := 0 to n
        invariant forall j', i' :: 0 <= j' < j && 0 <= i' < n ==> Flat.Index(j', i', n) < |v| && chains[j', i'] == v[Flat.Index(j', i', n)]
        invariant forall i' :: 0 <= i' < i ==> Flat.Index(j, i', n) < |v| && chains[j, i'] == v[Flat.Index(j, i', n)]
      {
        Flat.IndexInRange(j, i, ChainCount, n);
        chains[j, i] := v[j * n + i];
      }
    }
    e := Success;
  }

  // ---------------------------------------------------------------------
  // Writing and reading back

  /** The written file's lines are exactly the rows, one per bit position. */
  lemma LinesOfWritten(chains: seq<seq<bool>>, n: nat)
    requires IsChains(chains, n)
    ensures CP.Lines(ChainsText(chains, n)) == WrittenRows(chains, n)
  {
    var rows := WrittenRows(chains, n);
    forall l | l in rows ensures '\n' !in l {
      var i :| 0 <= i < n && rows[i] == l;
      CellsTextOneLine(Column(chains, i));
    }
    CP.LinesOfTerminated(rows, "");
    assert CP.Terminated(rows) + "" == CP.Terminated(rows);
  }

  /** The first cell of a written row is the bit of chain 0. */
  lemma RowBit(bits: seq<bool>)
    requires |bits| > 0
    ensures LineBit(CellsText(bits)) == bits[0]
  {
    FirstCellIs(BitText(bits[0]), CellsText(bits[1..]), true);
  }

  /**
   * A file written by writeChainsToCsv reads back as one bit per line: the
   * bits of chain 0 only, n of them instead of 6 n.
   */
  lemma WrittenChainsReadBack(chains: seq<seq<bool>>, n: nat)
    requires IsChains(chains, n)
    ensures FileBits(ChainsText(chains, n)) == chains[0]
  {
    LinesOfWritten(chains, n);
    var v := FileBits(ChainsText(chains, n));
    forall i | 0 <= i < n ensures v[i] == chains[0][i] {
      RowBit(Column(chains, i));
    }
  }

  /** So for any n > 0, readChainsFromCsv<n> refuses what writeChainsToCsv<n> wrote. */
  lemma WrittenChainsRefused(chains: seq<seq<bool>>, n: nat)
    requires IsChains(chains, n) && n > 0
    ensures |FileBits(ChainsText(chains, n))| != ChainCount * n
  {
    WrittenChainsReadBack(chains, n);
  }

  /** The six chains laid end to end, chain 0 first, as readChainsFromCsv expects them. */
  function Flatten(chains: seq<seq<bool>>, n: nat): (v: seq<bool>)
    requires IsChains(chains, n)
    ensures |v| == ChainCount * n
  {
    seq(ChainCount * n, k requires 0 <= k < ChainCount * n =>
      Flat.IndexOnto(k, ChainCount, n); chains[k / n][k % n])
  }

  /** Bit i of chain j sits at j * n + i of the flattened chains, and nowhere else. */
  lemma FlattenPlaces(chains: seq<seq<bool>>, n: nat)
    requires IsChains(chains, n)
    ensures forall j, i :: 0 <= j < ChainCount && 0 <= i < n ==>
      Flat.Index(j, i, n) < |Flatten(chains, n)| && Flatten(chains, n)[Flat.Index(j, i, n)] == chains[j][i]
  {
    forall j, i | 0 <= j < ChainCount && 0 <= i < n
      ensures Flat.Index(j, i, n) < |Flatten(chains, n)| && Flatten(chains, n)[Flat.Index(j, i, n)] == chains[j][i]
    {
      var k := Flat.Index(j, i, n);
      Flat.IndexInRange(j, i, ChainCount, n);
      Flat.IndexOnto(k, ChainCount, n);
      Flat.IndexInjective(k / n, k % n, j, i, n);
    }
  }

  /** One line per bit of the flattened chains, as readChainsFromCsv expects them. */
  function ChainMajorLines(chains: seq<seq<bool>>, n: nat): (lines: seq<string>)
    requires IsChains(chains, n)
    ensures |lines| == ChainCount * n
    ensures forall k :: 0 <= k < |lines| ==> lines[k] == BitText(Flatten(chains, n)[k])
  {
    var v := Flatten(chains, n);
    seq(|v|, k requires 0 <= k < |v| => BitText(v[k]))
  }

  /** A file that readChainsFromCsv reads back as the chains. */
  function ChainMajorText(chains: seq<seq<bool>>, n: nat): string
    requires IsChains(chains, n)
  {
    CP.Terminated(ChainMajorLines(chains, n))
  }

  lemma LinesOfChainMajor(chains: seq<seq<bool>>, n: nat)
    requires IsChains(chains, n)
    ensures CP.Lines(ChainMajorText(chains, n)) == ChainMajorLines(chains, n)
  {
    var lines := ChainMajorLines(chains, n);
    forall l | l in lines ensures '\n' !in l {
    }
    CP.LinesOfTerminated(lines, "");
    assert CP.Terminated(lines) + "" == CP.Terminated(lines);
  }

  /** A line holding a single bit reads back as that bit. */
  lemma BitLine(b: bool)
    ensures LineBit(BitText(b)) == b
  {
    FirstCellIs(BitText(b), "", false);
    assert BitText(b) + "" + "" == BitText(b);
  }

  /** Writing chain-major and reading back gives every bit of every chain in its place. */
  lemma ChainMajorRoundTrip(chains: seq<seq<bool>>, n: nat)
    requires IsChains(chains, n)
    ensures FileBits(ChainMajorText(chains, n)) == Flatten(chains, n)
    ensures forall j, i :: 0 <= j < ChainCount && 0 <= i < n ==>
      Flat.Index(j, i, n) < |FileBits(ChainMajorText(chains, n))| && FileBits(ChainMajorText(chains, n))[Flat.Index(j, i, n)] == chains[j][i]
  {
    LinesOfChainMajor(chains, n);
    var v, w := Flatten(chains, n), FileBits(ChainMajorText(chains, n));
    forall k | 0 <= k < |v| ensures w[k] == v[k] {
      BitLine(v[k]);
    }
    FlattenPlaces(chains, n);
  }

  // ---------------------------------------------------------------------
  // The whole write-and-read cycle

  /** Line Index(j, i, n) of the chain-major file holds bit i of chain j. */
  lemma ChainMajorLineAt(chains: seq<seq<bool>>, n: nat, j: nat, i: nat)
    requires IsChains(chains, n) && j < ChainCount && i < n
    ensures Flat.Index(j, i, n) < ChainCount * n
    ensures ChainMajorLines(chains, n)[Flat.Index(j, i, n)] == BitText(chains[j][i])
  {
    var k := Flat.Index(j, i, n);
    Flat.IndexInRange(j, i, ChainCount, n);
    Flat.IndexOnto(k, ChainCount, n);
    Flat.IndexInjective(k / n, k % n, j, i, n);
  }

  /** Writing one more line appends it and its '\n'. */
  lemma TerminatedPrefix(lines: seq<string>, k: nat)
    requires k < |lines|
    ensures CP.Terminated(lines[..k + 1]) == CP.Terminated(lines[..k]) + lines[k] + "\n"
  {
    assert lines[..k + 1][..k] == lines[..k];
  }

  /**
   * A writer in the layout readChainsFromCsv<n> reads: one line per bit,
   * all of chain 0 first, then chain 1, and so on.
   */
  method WriteChainsChainMajor(chains: array2<bool>) returns (text: string)
    requires chains.Length0 == ChainCount
    ensures IsChains(Grid(chains), chains.Length1)
    ensures text == ChainMajorText(Grid(chains), chains.Length1)
  {
    ghost var g := Grid(chains);
    var n := chains.Length1;
    ghost var lines := ChainMajorLines(g, n);
    ghost var k: nat := 0;
    text := "";
    for j := 0 to ChainCount
      invariant k == Flat.Index(j, 0, n) && k <= |lines|
      invariant text == CP.Terminated(lines[..k])
    {
      for i := 0 to n
        invariant k == Flat.Index(j, i, n) && k <= |lines|
        invariant text == CP.Terminated(lines[..k])
      {
        ChainMajorLineAt(g, n, j, i);
        TerminatedPrefix(lines, k);
        text := text + BitText(chains[j, i]) + "\n";
        k := k + 1;
      }
      Flat.MulDistrib(j, n);
    }
    assert lines[..k] == lines;
  }

  /** Six chains of n bits that agree bit by bit are equal. */
  lemma SameChains(a: seq<seq<bool>>, b: seq<seq<bool>>, n: nat)
    requires IsChains(a, n) && IsChains(b, n)
    requires forall j, i :: 0 <= j < ChainCount && 0 <= i < n ==> a[j][i] == b[j][i]
    ensures a == b
  {
    forall j | 0 <= j < ChainCount ensures a[j] == b[j] {
    }
  }

  /**
   * The writer and the reader of the header, one after the other: for any
   * n > 0 the file is refused and the chains read into stay as they were.
   */
  method WrittenChainsCycle(chains: array2<bool>, into: array2<bool>) returns (e: ReadCsvErrorCode)
    requires chains.Length0 == ChainCount && into.Length0 == ChainCount && into.Length1 == chains.Length1
    requires chains.Length1 > 0
    modifies into
    ensures e == NumberOfElements && Grid(into) == old(Grid(into))
  {
    var text := WriteChainsToCsv(chains);
    WrittenChainsRefused(Grid(chains), chains.Length1);
    e := ReadChainsFromCsv(Some(text), into);
  }

  /**
   * The chain-major writer and the reader of the header, one after the
   * other: the file is accepted and every chain is read back as written.
   */
  method ChainMajorCycle(chains: array2<bool>, into: array2<bool>) returns (e: ReadCsvErrorCode)
    requires chains.Length0 == ChainCount && into.Length0 == ChainCount && into.Length1 == chains.Length1
    modifies into
    ensures e == Success && Grid(into) == old(Grid(chains))
  {
    ghost var g, n := Grid(chains), chains.Length1;
    var text := WriteChainsChainMajor(chains);
    ChainMajorRoundTrip(g, n);
    e := ReadChainsFromCsv(Some(text), into);
    SameChains(Grid(into), g, n);
  }
}
