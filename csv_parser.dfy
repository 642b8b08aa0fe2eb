/**
 * The channel-table reader of the C glue library (CSVParser.cpp): a
 * three-state scanner that splits one line into fields, Excel style, a line
 * reader in the manner of repeated std::getline, the four string-to-code
 * tables and the loop that appends one entry per row to the four member
 * vectors of CSVParser.
 */
module CsvParser {
  import opened Wrappers
  import opened ChannelConfig

  /** A row of the table: its fields. */
  type Row = seq<string>

  datatype CsvState = UnquotedField | QuotedField | QuotedQuote

  /** What the scanner holds between two characters: its state and the fields so far, the last one open. */
  datatype Scan = Scan(state: CsvState, fields: Row)

  predicate Open(sc: Scan) { |sc.fields| >= 1 }

  /** The scanner before the first character: one empty field, unquoted. */
  const Start: Scan := Scan(UnquotedField, [""])

  /** `fields[i].push_back(c)` on the open field. */
  function AppendToLast(fields: Row, c: char): Row
    requires |fields| >= 1
  {
    fields[|fields| - 1 := fields[|fields| - 1] + [c]]
  }

  /** One turn of the character loop of readCSVRow. */
  function Step(sc: Scan, c: char): (r: Scan)
    requires Open(sc)
    ensures Open(r)
  {
    match sc.state
    case UnquotedField =>
      if c == ',' then Scan(UnquotedField, sc.fields + [""])
      else if c == '"' then Scan(QuotedField, sc.fields)
      else Scan(UnquotedField, AppendToLast(sc.fields, c))
    case QuotedField =>
      if c == '"' then Scan(QuotedQuote, sc.fields)
      else Scan(QuotedField, AppendToLast(sc.fields, c))
    case QuotedQuote =>
      if c == ',' then Scan(UnquotedField, sc.fields + [""])
      else if c == '"' then Scan(QuotedField, AppendToLast(sc.fields, '"'))
      else Scan(UnquotedField, sc.fields)
  }

  /** The scanner after reading text from sc, one character after the other. */
  function Run(sc: Scan, text: string): (r: Scan)
    requires Open(sc)
    ensures Open(r)
    decreases |text|
  {
    if |text| == 0 then sc else Step(Run(sc, text[..|text| - 1]), text[|text| - 1])
  }

  /** The fields readCSVRow returns for row; there is always at least one. */
  function RowFields(row: string): (r: Row)
    ensures |r| >= 1
  {
    Run(Start, row).fields
  }

  /** readCSVRow: the character loop, with the field index i of the source. */
  method ReadCsvRow(row: string) returns (fields: Row)
    ensures fields == RowFields(row)
  {
    var state := UnquotedField;
    fields := [""];
    var i := 0;  // index of the current field
    for k := 0 to |row|
      invariant Scan(state, fields) == Run(Start, row[..k])
      invariant i == |fields| - 1
    {
      var c := row[k];
      assert row[..k + 1][..k] == row[..k];
      match state {
        case UnquotedField =>
          if c == ',' {
            fields := fields + [""];
            i := i + 1;
          } else if c == '"' {
            state := QuotedField;
          } else {
            fields := fields[i := fields[i] + [c]];
          }
        case QuotedField =>
          if c == '"' {
            state := QuotedQuote;
          } else {
            fields := fields[i := fields[i] + [c]];
          }
        case QuotedQuote =>
          if c == ',' {
            fields := fields + [""];
            i := i + 1;
            state := UnquotedField;
          } else if c == '"' {
            fields := fields[i := fields[i] + ['"']];
            state := QuotedField;
          } else {
            state := UnquotedField;
          }
      }
    }
    assert row[..|row|] == row;
  }

  // ---------------------------------------------------------------------
  // What the scanner does with a row

  /** Reading a + b is reading a, then b. */
  lemma {:induction false} RunConcat(sc: Scan, a: string, b: string)
    requires Open(sc)
    ensures Run(sc, a + b) == Run(Run(sc, a), b)
    decreases |b|
  {
    if |b| == 0 {
      assert a + b == a;
    } else {
      var b' := b[..|b| - 1];
      assert (a + b)[..|a + b| - 1] == a + b';
      RunConcat(sc, a, b');
    }
  }

  /** The commas of row that separate fields: those read while not inside quotes. */
  function Separators(row: string): nat
    decreases |row|
  {
    if |row| == 0 then 0
    else
      var p := row[..|row| - 1];
      Separators(p) + (if row[|row| - 1] == ',' && Run(Start, p).state != QuotedField then 1 else 0)
  }

  /** A row has one field more than it has separators. */
  lemma {:induction false} FieldCount(row: string)
    ensures |RowFields(row)| == 1 + Separators(row)
    decreases |row|
  {
    if |row| > 0 {
      FieldCount(row[..|row| - 1]);
    }
  }

  /** The fields joined again with ',' between them. */
  function Join(fields: Row): string
    requires |fields| >= 1
  {
    if |fields| == 1 then fields[0] else Join(fields[..|fields| - 1]) + "," + fields[|fields| - 1]
  }

  /** No field holds a ','. */
  predicate CommaFree(fields: Row)
  {
    forall j :: 0 <= j < |fields| ==> ',' !in fields[j]
  }

  /**
   * A row without '"' is split at every ',': the fields hold no comma and
   * joining them with ',' gives the row back.
   */
  lemma {:induction false} UnquotedRow(row: string)
    requires '"' !in row
    ensures Run(Start, row).state == UnquotedField
    ensures Join(RowFields(row)) == row
    ensures CommaFree(RowFields(row))
    decreases |row|
  {
    if |row| > 0 {
      var p, c := row[..|row| - 1], row[|row| - 1];
      assert row == p + [c];
      assert '"' !in p by {
        forall j | 0 <= j < |p| ensures p[j] != '"' {
          assert p[j] == row[j];
        }
      }
      UnquotedRow(p);
      if c == ',' {
        JoinNewField(RowFields(p));
      } else {
        JoinAppendLast(RowFields(p), c);
      }
    }
  }

  /** A ',' read outside quotes adds one empty field: the join grows by the comma. */
  lemma JoinNewField(fs: Row)
    requires |fs| >= 1 && CommaFree(fs)
    ensures Join(fs + [""]) == Join(fs) + "," && CommaFree(fs + [""])
  {
    assert (fs + [""])[..|fs|] == fs;
  }

  /** Any other character read outside quotes extends the last field, and the join by that character. */
  lemma JoinAppendLast(fs: Row, c: char)
    requires |fs| >= 1 && CommaFree(fs) && c != ','
    ensures Join(AppendToLast(fs, c)) == Join(fs) + [c] && CommaFree(AppendToLast(fs, c))
  {
    var n, fs' := |fs|, AppendToLast(fs, c);
    assert fs'[n - 1] == fs[n - 1] + [c];
    assert ',' !in fs[n - 1];
    if n > 1 {
      assert fs'[..n - 1] == fs[..n - 1];
    }
  }

  /** Two comma-free splittings with the same join are the same: the split of a row is unique. */
  lemma {:induction false} SplitIsUnique(a: Row, b: Row)
    requires |a| >= 1 && |b| >= 1 && Join(a) == Join(b)
    requires CommaFree(a) && CommaFree(b)
    ensures a == b
    decreases |a| + |b|
  {
    var s := Join(a);
    if |a| == 1 && |b| == 1 {
    } else if |a| == 1 {
      JoinHasComma(b);
      assert false;
    } else if |b| == 1 {
      JoinHasComma(a);
      assert false;
    } else {
      var la, lb := a[|a| - 1], b[|b| - 1];
      var pa, pb := Join(a[..|a| - 1]), Join(b[..|b| - 1]);
      assert s == pa + "," + la == pb + "," + lb;
      LastCommaSplit(pa, la, pb, lb);
      SplitIsUnique(a[..|a| - 1], b[..|b| - 1]);
      assert a == a[..|a| - 1] + [la];
      assert b == b[..|b| - 1] + [lb];
    }
  }

  /** A join of two or more fields holds a comma. */
  lemma JoinHasComma(fs: Row)
    requires |fs| >= 2
    ensures ',' in Join(fs)
  {
    var p := Join(fs[..|fs| - 1]);
    assert Join(fs)[|p|] == ',';
  }

  /** The last comma of a string fixes what comes before it. */
  lemma LastCommaSplit(pa: string, la: string, pb: string, lb: string)
    requires pa + "," + la == pb + "," + lb
    requires ',' !in la && ',' !in lb
    ensures pa == pb && la == lb
  {
    var s := pa + "," + la;
    assert forall j :: |pa| < j < |s| ==> s[j] == la[j - |pa| - 1];
    assert forall j :: |pb| < j < |s| ==> s[j] == lb[j - |pb| - 1];
    assert s[|pa|] == ',' && s[|pb|] == ',';
    assert |pa| == |pb|;
    assert pa == s[..|pa|] == pb;
    assert la == s[|pa| + 1..] == lb;
  }

  /** A '"' met outside quotes is not stored: it only opens a quoted field. */
  lemma OpeningQuoteNotStored(p: string)
    requires Run(Start, p).state == UnquotedField
    ensures Run(Start, p + ['"']) == Scan(QuotedField, RowFields(p))
  {
    assert (p + ['"'])[..|p|] == p;
  }

  /** After a closing quote a character other than ',' and '"' is dropped and unquoted mode resumes. */
  lemma CharAfterClosingQuoteDropped(p: string, c: char)
    requires Run(Start, p).state == QuotedQuote && c != ',' && c != '"'
    ensures Run(Start, p + [c]) == Scan(UnquotedField, RowFields(p))
  {
    assert (p + [c])[..|p|] == p;
  }

  // ---------------------------------------------------------------------
  // Quoted fields, and the row format they come from

  /** w with every '"' doubled. */
  function Escape(w: string): string
    decreases |w|
  {
    if |w| == 0 then ""
    else Escape(w[..|w| - 1]) + (if w[|w| - 1] == '"' then "\"\"" else [w[|w| - 1]])
  }

  /** w as an Excel quoted field. */
  function Quote(w: string): string
  {
    "\"" + Escape(w) + "\""
  }

  /** The fields written as quoted fields separated by ','. */
  function FormatRow(fields: Row): string
    requires |fields| >= 1
  {
    if |fields| == 1 then Quote(fields[0])
    else FormatRow(fields[..|fields| - 1]) + "," + Quote(fields[|fields| - 1])
  }

  /** Inside quotes, an escaped w (commas included) is added to the open field as it is. */
  lemma {:induction false} EscapedRun(sc: Scan, w: string)
    requires Open(sc) && sc.state == QuotedField
    ensures Run(sc, Escape(w)) == Scan(QuotedField, sc.fields[|sc.fields| - 1 := sc.fields[|sc.fields| - 1] + w])
    decreases |w|
  {
    var n := |sc.fields|;
    if |w| == 0 {
      assert sc.fields[n - 1] + w == sc.fields[n - 1];
    } else {
      var p, c := w[..|w| - 1], w[|w| - 1];
      EscapedRun(sc, p);
      var mid := Scan(QuotedField, sc.fields[n - 1 := sc.fields[n - 1] + p]);
      var tail := if c == '"' then "\"\"" else [c];
      RunConcat(sc, Escape(p), tail);
      assert sc.fields[n - 1] + p + [c] == sc.fields[n - 1] + w;
      if c == '"' {
        assert tail == ['"'] + ['"'];
        RunConcat(mid, ['"'], ['"']);
        assert Run(mid, ['"']) == Scan(QuotedQuote, mid.fields);
        assert ['"'][..0] == [];
      } else {
        assert tail[..0] == [];
      }
    }
  }

  /** Read outside quotes, a quoted w is added to the open field and leaves the scanner after the closing quote. */
  lemma QuotedRun(sc: Scan, w: string)
    requires Open(sc) && sc.state == UnquotedField
    ensures Run(sc, Quote(w)) == Scan(QuotedQuote, sc.fields[|sc.fields| - 1 := sc.fields[|sc.fields| - 1] + w])
  {
    var n := |sc.fields|;
    RunConcat(sc, "\"", Escape(w));
    RunConcat(sc, "\"" + Escape(w), "\"");
    assert Run(sc, "\"") == Scan(QuotedField, sc.fields) by {
      assert "\""[..0] == [];
    }
    EscapedRun(Scan(QuotedField, sc.fields), w);
  }

  /** Every sequence of fields, commas and quotes included, is read back from its quoted format. */
  lemma {:induction false} RowRoundTrip(fields: Row)
    requires |fields| >= 1
    ensures Run(Start, FormatRow(fields)) == Scan(QuotedQuote, fields)
    ensures RowFields(FormatRow(fields)) == fields
    decreases |fields|
  {
    var n := |fields|;
    if n == 1 {
      QuotedRun(Start, fields[0]);
      assert "" + fields[0] == fields[0];
      assert [""][0 := fields[0]] == fields;
    } else {
      var init := fields[..n - 1];
      RowRoundTrip(init);
      var afterComma := Scan(UnquotedField, init + [""]);
      RunConcat(Start, FormatRow(init), ",");
      assert Run(Start, FormatRow(init) + ",") == afterComma by {
        assert ","[..0] == [];
      }
      RunConcat(Start, FormatRow(init) + ",", Quote(fields[n - 1]));
      QuotedRun(afterComma, fields[n - 1]);
      assert "" + fields[n - 1] == fields[n - 1];
      assert (init + [""])[n - 1 := fields[n - 1]] == fields;
    }
  }

  // ---------------------------------------------------------------------
  // Lines, as repeated std::getline yields them

  /** What a line reader has seen of a text: the completed lines and the line it is in. */
  datatype LineScan = LineScan(complete: seq<string>, partial: string)

  function ScanLines(text: string): LineScan
    decreases |text|
  {
    if |text| == 0 then LineScan([], "")
    else
      var s := ScanLines(text[..|text| - 1]);
      var c := text[|text| - 1];
      if c == '\n' then LineScan(s.complete + [s.partial], "") else LineScan(s.complete, s.partial + [c])
  }

  /**
   * The lines the loop of readCSV reads from text: each '\n'-terminated
   * line without its '\n'. A last line that is not terminated is met
   * together with the end of input, so it is not returned.
   */
  function Lines(text: string): seq<string>
  {
    ScanLines(text).complete
  }

  /** Characters other than '\n' only extend the current line. */
  lemma {:induction false} ScanWithinLine(text: string, w: string)
    requires '\n' !in w
    ensures ScanLines(text + w) == LineScan(ScanLines(text).complete, ScanLines(text).partial + w)
    decreases |w|
  {
    if |w| == 0 {
      assert text + w == text;
      assert ScanLines(text).partial + w == ScanLines(text).partial;
    } else {
      var w' := w[..|w| - 1];
      assert (text + w)[..|text + w| - 1] == text + w';
      assert w[|w| - 1] in w;
      assert '\n' !in w' by {
        forall j | 0 <= j < |w'| ensures w'[j] != '\n' {
          assert w'[j] == w[j];
        }
      }
      ScanWithinLine(text, w');
      assert ScanLines(text).partial + w' + [w[|w| - 1]] == ScanLines(text).partial + w;
    }
  }

  /** A line and its '\n' read at the start of a line complete that line. */
  lemma ScanLine(text: string, line: string)
    requires ScanLines(text).partial == "" && '\n' !in line
    ensures ScanLines(text + line + "\n") == LineScan(ScanLines(text).complete + [line], "")
  {
    ScanWithinLine(text, line);
    assert (text + line + "\n")[..|text + line|] == text + line;
    assert "" + line == line;
  }

  /** The lines written one after the other, each followed by '\n'. */
  function Terminated(lines: seq<string>): string
  {
    if |lines| == 0 then "" else Terminated(lines[..|lines| - 1]) + lines[|lines| - 1] + "\n"
  }

  /**
   * Reading back terminated lines, with an unterminated tail after them,
   * gives exactly those lines: the tail is dropped.
   */
  lemma {:induction false} LinesOfTerminated(lines: seq<string>, tail: string)
    requires forall l :: l in lines ==> '\n' !in l
    requires '\n' !in tail
    ensures ScanLines(Terminated(lines)) == LineScan(lines, "")
    ensures Lines(Terminated(lines) + tail) == lines
    decreases |lines|
  {
    if |lines| > 0 {
      var init, l := lines[..|lines| - 1], lines[|lines| - 1];
      assert forall m :: m in init ==> m in lines;
      assert l in lines;
      LinesOfTerminated(init, "");
      ScanLine(Terminated(init), l);
      assert init + [l] == lines;
    }
    ScanWithinLine(Terminated(lines), tail);
  }

  /**
   * std::getline from position p with delimiter delim: the text up to the
   * next delim and the position after it; or found == false and the rest
   * of the input when it ends first (the stream then reports end of file).
   */
  method GetLine(text: string, p: nat, delim: char) returns (found: bool, line: string, next: nat)
    requires p <= |text|
    ensures delim !in line
    ensures found ==> p < next <= |text| && text[..next] == text[..p] + line + [delim]
    ensures !found ==> text == text[..p] + line
  {
    var q := p;
    while q < |text| && text[q] != delim
      invariant p <= q <= |text|
      invariant delim !in text[p..q]
    {
      assert text[p..q + 1] == text[p..q] + [text[q]];
      q := q + 1;
    }
    found := q < |text|;
    line := text[p..q];
    if found {
      next := q + 1;
      assert text[..next] == text[..p] + line + [delim];
    } else {
      next := q;
      assert text == text[..p] + line;
    }
  }

  /** The table readCSV builds: one row of fields per line. */
  function Table(text: string): (t: seq<Row>)
    ensures |t| == |Lines(text)|
    ensures forall i :: 0 <= i < |t| ==> t[i] == RowFields(Lines(text)[i])
  {
    var lines := Lines(text);
    seq(|lines|, i requires 0 <= i < |lines| => RowFields(lines[i]))
  }

  /** readCSV: reads lines until the end of input, splitting each into fields. */
  method ReadCsv(text: string) returns (table: seq<Row>)
    ensures table == Table(text)
  {
    table := [];
    ghost var done: seq<string> := [];
    var p := 0;
    var found := true;
    assert text[..p] == [];
    while found
      invariant p <= |text|
      invariant found ==> ScanLines(text[..p]) == LineScan(done, "")
      invariant !found ==> Lines(text) == done
      invariant |table| == |done|
      invariant forall i :: 0 <= i < |done| ==> table[i] == RowFields(done[i])
      decreases |text| - p, found
    {
      var row, next;
      found, row, next := GetLine(text, p, '\n');
      if found {
        ScanLine(text[..p], row);
        var fields := ReadCsvRow(row);
        table := table + [fields];
        done := done + [row];
        p := next;
      } else {
        ScanWithinLine(text[..p], row);
      }
    }
    ghost var t := Table(text);
    assert |table| == |t| && forall i :: 0 <= i < |t| ==> table[i] == t[i];
  }

  // ---------------------------------------------------------------------
  // The string-to-code tables

  /** `m[key]` on a std::map: the mapped value, or the value-initialised default the lookup inserts. */
  function Lookup<T>(m: map<string, T>, key: string, default: T): T
  {
    if key in m then m[key] else default
  }

  /** The labels of a table, in code order, are its keys, and code i is the i-th label's value. */
  predicate Tabulates<T(==)>(m: map<string, T>, labels: seq<string>, codes: seq<T>)
  {
    && |labels| == |codes|
    && m.Keys == set l | l in labels
    && forall i :: 0 <= i < |labels| ==> labels[i] in m && m[labels[i]] == codes[i]
  }

  const RefSelLabels: seq<string> := ["REF_SEL_NONE", "REF_SEL_EXT", "REF_SEL_L1", "REF_SEL_L2"]
  const RefSelTable: map<string, RefSel> :=
    map["REF_SEL_NONE" := RefSelNone, "REF_SEL_EXT" := RefSelExt, "REF_SEL_L1" := RefSelL1, "REF_SEL_L2" := RefSelL2]

  const GainLabels: seq<string> := ["50", "125", "250", "500", "1000", "1500", "2000", "2500"]
  const GainTable: map<string, int> :=
    map["50" := 0, "125" := 1, "250" := 2, "500" := 3, "1000" := 4, "1500" := 5, "2000" := 6, "2500" := 7]

  const ModeTable: map<string, bool> := map["AP" := true, "LFP" := false]

  const BwLabels: seq<string> := ["300", "500", "NA", "1000"]
  const BwTable: map<string, int> := map["300" := 0, "500" := 1, "NA" := 2, "1000" := 3]

  /** RefSelMap: a reference name to its enumerator; an unknown name gives REF_SEL_NONE. */
  function RefSelOf(s: string): (r: RefSel)
    ensures s in RefSelTable ==> r == RefSelTable[s]
    ensures s !in RefSelTable ==> r == RefSelNone
  {
    Lookup(RefSelTable, s, RefSelNone)
  }

  /** GainMap: a gain label to its code; an unknown label gives 0. */
  function GainOf(s: string): (g: int)
    ensures 0 <= g <= MaxGain as int
    ensures s !in GainTable ==> g == 0
  {
    Lookup(GainTable, s, 0)
  }

  /** ModeMap: "AP" to true, "LFP" and every unknown label to false. */
  function ModeOf(s: string): (m: bool)
    ensures m <==> s == "AP"
  {
    Lookup(ModeTable, s, false)
  }

  /** BWMap: a bandwidth label to its code; an unknown label gives 0. */
  function BwOf(s: string): (b: int)
    ensures 0 <= b <= MaxBw as int
    ensures s !in BwTable ==> b == 0
  {
    Lookup(BwTable, s, 0)
  }

  /** RefSelMap lists REF_SEL_NONE, REF_SEL_EXT, REF_SEL_L1 and REF_SEL_L2 in enumerator order. */
  lemma RefSelTableInCodeOrder()
    ensures Tabulates(RefSelTable, RefSelLabels, [RefSelNone, RefSelExt, RefSelL1, RefSelL2])
  {
  }

  /** GainMap gives the eight gains the codes 0 to 7, in increasing order of gain. */
  lemma GainTableInCodeOrder()
    ensures Tabulates(GainTable, GainLabels, [0, 1, 2, 3, 4, 5, 6, 7])
  {
  }

  /** BWMap gives "300", "500", "NA" and "1000" the codes 0 to 3. */
  lemma BwTableInCodeOrder()
    ensures Tabulates(BwTable, BwLabels, [0, 1, 2, 3])
  {
  }

  /** Every code has exactly one label: reading the i-th label gives code i. */
  lemma LabelsRoundTrip(i: nat)
    ensures i < 4 ==> RefSelOf(RefSelLabels[i]).Code() == i
    ensures i < 8 ==> GainOf(GainLabels[i]) == i
    ensures i < 4 ==> BwOf(BwLabels[i]) == i
  {
  }

  /** The codes CSVParser stores for one row (columns 0 to 3). */
  datatype ChannelCodes = ChannelCodes(reference: int, gain: int, mode: bool, bw: int)

  function RowCodes(row: Row): (c: ChannelCodes)
    requires |row| >= 4
    ensures 0 <= c.reference < 4 && 0 <= c.gain <= MaxGain as int && 0 <= c.bw <= MaxBw as int
  {
    ChannelCodes(RefSelOf(row[0]).Code(), GainOf(row[1]), ModeOf(row[2]), BwOf(row[3]))
  }

  /** Every row has the four columns ParsedStringDataToChannelConfigInts reads. */
  predicate HasFourColumns(table: seq<Row>)
  {
    forall i :: 0 <= i < |table| ==> |table[i]| >= 4
  }

  /**
   * CSVParser: the per-channel codes read from a channel-table file, one
   * entry per row, in row order.
   */
  class CsvChannelTable {
    var reference: seq<int>
    var gain: seq<int>
    var mode: seq<bool>
    var bw: seq<int>

    /** The four vectors have one entry per channel read, each a legal code. */
    ghost predicate Valid()
      reads this
    {
      && |gain| == |reference| && |mode| == |reference| && |bw| == |reference|
      && forall c :: 0 <= c < |reference| ==>
           0 <= reference[c] < 4 && 0 <= gain[c] <= MaxGain as int && 0 <= bw[c] <= MaxBw as int
    }

    /** The codes stored for channel c. */
    function Channel(c: nat): ChannelCodes
      requires Valid() && c < |reference|
      reads this
    {
      ChannelCodes(reference[c], gain[c], mode[c], bw[c])
    }

    /**
     * The constructor: `file` is the file's contents, or None when it could
     * not be opened, in which case the vectors stay empty. The rows must
     * have four fields each, since the conversion reads columns 0 to 3
     * without a check.
     */
    constructor (file: Option<string>)
      requires file.Some? ==> HasFourColumns(Table(file.value))
      ensures Valid()
      ensures file.None? ==> |reference| == 0
      ensures file.Some? ==> |reference| == |Table(file.value)|
      ensures file.Some? ==> forall c :: 0 <= c < |reference| ==> Channel(c) == RowCodes(Table(file.value)[c])
    {
      reference, gain, mode, bw := [], [], [], [];
      new;
      if file.Some? {
        var table := ReadCsv(file.value);
        ParsedStringDataToChannelConfigInts(table);
      }
    }

    /**
     * ParsedStringDataToChannelConfigInts: appends the codes of every row to
     * the four vectors, in row order.
     */
    method ParsedStringDataToChannelConfigInts(table: seq<Row>)
      requires Valid() && HasFourColumns(table)
      modifies this
      ensures Valid()
      ensures |reference| == old(|reference|) + |table|
      ensures forall c :: 0 <= c < old(|reference|) ==> Channel(c) == old(Channel(c))
      ensures forall r :: 0 <= r < |table| ==> Channel(old(|reference|) + r) == RowCodes(table[r])
    {
      ghost var n0 := |reference|;
      for channel := 0 to |table|
        invariant Valid()
        invariant |reference| == n0 + channel
        invariant reference[..n0] == old(reference) && gain[..n0] == old(gain)
        invariant mode[..n0] == old(mode) && bw[..n0] == old(bw)
        invariant forall r :: 0 <= r < channel ==> Channel(n0 + r) == RowCodes(table[r])
      {
        Append(RowCodes(table[channel]));
      }
    }

    /** The four `insert(v.end(), x)` calls for one channel. */
    method Append(codes: ChannelCodes)
      requires Valid()
      requires 0 <= codes.reference < 4 && 0 <= codes.gain <= MaxGain as int && 0 <= codes.bw <= MaxBw as int
      modifies this
      ensures Valid()
      ensures reference == old(reference) + [codes.reference] && gain == old(gain) + [codes.gain]
      ensures mode == old(mode) + [codes.mode] && bw == old(bw) + [codes.bw]
    {
      reference := reference + [codes.reference];
      gain := gain + [codes.gain];
      mode := mode + [codes.mode];
      bw := bw + [codes.bw];
    }
  }
}
