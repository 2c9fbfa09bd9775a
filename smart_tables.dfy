/**
 * `convert_ascii_tables_to_markdown` (omnidoc/features/smart_convert.py:6-32):
 * a line with two cells set apart by two or more spaces starts a block
 * that runs to the next blank line or heading, and the block becomes a
 * Markdown table.
 */
module SmartTables {
  import opened Text

  /** `\S\s{2,}\S` matched from `i` to `j`: non-space, two or more spaces, non-space. */
  predicate Gap(s: string, i: nat, j: nat) {
    i + 3 <= j < |s| && !IsSpace(s[i]) && !IsSpace(s[j]) && forall m :: i < m < j ==> IsSpace(s[m])
  }

  /** A row that starts a table: two cells set apart by a wide gap. */
  predicate HasWideGap(s: string) {
    exists i, j :: 0 <= i < j < |s| && Gap(s, i, j)
  }

  /** A blank line or a heading ends a table block. */
  predicate StopsBlock(line: string) {
    IsBlank(line) || StartsWith(line, "#")
  }

  /** The first line at or after `j` that ends the block, or the number of lines. */
  function BlockEnd(lines: seq<string>, j: nat): (k: nat)
    requires j <= |lines|
    ensures j <= k <= |lines|
    ensures k < |lines| ==> StopsBlock(lines[k])
    ensures forall m :: j <= m < k ==> !StopsBlock(lines[m])
    decreases |lines| - j
  {
    if j == |lines| || StopsBlock(lines[j]) then j else BlockEnd(lines, j + 1)
  }

  /** The cells of a row: the stripped row cut at every run of two or more whitespace characters, each cell stripped. */
  function Cells(row: string): (r: seq<string>)
    ensures |r| == |SplitWide(Strip(row))|
  {
    var ps := SplitWide(Strip(row));
    seq(|ps|, k requires 0 <= k < |ps| => Strip(ps[k]))
  }

  /** `"| " + " | ".join(cells) + " |"`. */
  function TableRow(cells: seq<string>): string {
    "| " + Join(cells, " | ") + " |"
  }

  /** `['---'] * n`. */
  function Dashes(n: nat): (r: seq<string>)
    ensures |r| == n
    ensures forall k :: 0 <= k < n ==> r[k] == "---"
  {
    seq(n, _ => "---")
  }

  /** One Markdown row per line of the block. */
  function RowsOf(block: seq<string>): (r: seq<string>)
    ensures |r| == |block|
    ensures forall k :: 0 <= k < |block| ==> r[k] == TableRow(Cells(block[k]))
  {
    seq(|block|, k requires 0 <= k < |block| => TableRow(Cells(block[k])))
  }

  /** The output lines for input lines `i..`. */
  function TablesFrom(lines: seq<string>, i: nat): seq<string>
    requires i <= |lines|
    decreases |lines| - i
  {
    if i == |lines| then []
    else
      var cols := Cells(lines[i]);
      if HasWideGap(lines[i]) && |cols| > 1 then
        var j := BlockEnd(lines, i + 1);
        [TableRow(cols), TableRow(Dashes(|cols|))] + RowsOf(lines[i + 1..j]) + TablesFrom(lines, j)
      else [lines[i]] + TablesFrom(lines, i + 1)
  }

  /** `convert_ascii_tables_to_markdown` on a whole document. */
  function ConvertAsciiTablesSpec(md: string): string {
    Join(TablesFrom(SplitLines(md), 0), "\n")
  }

  /** A detected header with more than one column: the table, then the lines after the block. */
  lemma TablesStepTable(lines: seq<string>, i: nat)
    requires i < |lines| && HasWideGap(lines[i]) && |Cells(lines[i])| > 1
    ensures var cols := Cells(lines[i]); var j := BlockEnd(lines, i + 1);
      TablesFrom(lines, i) == [TableRow(cols), TableRow(Dashes(|cols|))] + RowsOf(lines[i + 1..j]) + TablesFrom(lines, j)
  {
  }

  /** Any other line is copied. */
  lemma TablesStepCopy(lines: seq<string>, i: nat)
    requires i < |lines| && !(HasWideGap(lines[i]) && |Cells(lines[i])| > 1)
    ensures TablesFrom(lines, i) == [lines[i]] + TablesFrom(lines, i + 1)
  {
  }

  lemma RowsSnoc(block: seq<string>, k: nat)
    requires 1 <= k < |block|
    ensures RowsOf(block[1..k + 1]) == RowsOf(block[1..k]) + [TableRow(Cells(block[k]))]
  {
    assert block[1..k + 1] == block[1..k] + [block[k]];
  }

  lemma SliceSnoc<T>(a: seq<T>, i: nat, j: nat)
    requires i <= j < |a|
    ensures a[i..j + 1] == a[i..j] + [a[j]]
  {
  }

  lemma Regroup(out: seq<string>, head: seq<string>, tail: seq<string>)
    ensures (out + head) + tail == out + (head + tail)
  {
  }

  /** The inner `while` of the source: the lines after the header up to the first blank line or heading. */
  method CollectBlock(lines: seq<string>, i: nat) returns (block: seq<string>, j: nat)
    requires i < |lines|
    ensures j == BlockEnd(lines, i + 1)
    ensures block == lines[i..j]
  {
    block := [lines[i]];
    j := i + 1;
    while j < |lines| && !StopsBlock(lines[j])
      invariant i + 1 <= j <= |lines|
      invariant block == lines[i..j]
      invariant BlockEnd(lines, j) == BlockEnd(lines, i + 1)
      decreases |lines| - j
    {
      SliceSnoc(lines, i, j);
      block := block + [lines[j]];
      j := j + 1;
    }
  }

  /** The loop over the rows after the header: one Markdown row each. */
  method EmitRows(block: seq<string>) returns (rows: seq<string>)
    requires |block| >= 1
    ensures rows == RowsOf(block[1..])
  {
    rows := [];
    var k: nat := 1;
    while k < |block|
      invariant 1 <= k <= |block|
      invariant rows == RowsOf(block[1..k])
      decreases |block| - k
    {
      RowsSnoc(block, k);
      rows := rows + [TableRow(Cells(block[k]))];
      k := k + 1;
    }
    assert block[1..k] == block[1..];
  }

  /** The source's outer while loop over the lines. */
  method TablesLoop(lines: seq<string>) returns (out: seq<string>)
    ensures out == TablesFrom(lines, 0)
  {
    out := [];
    var i: nat := 0;
    while i < |lines|
      invariant i <= |lines|
      invariant out + TablesFrom(lines, i) == TablesFrom(lines, 0)
      decreases |lines| - i
    {
      var line := lines[i];
      if HasWideGap(line) {
        var block, j := CollectBlock(lines, i);
        var cols := Cells(block[0]);
        if |cols| > 1 {
          var rows := EmitRows(block);
          var table := [TableRow(cols), TableRow(Dashes(|cols|))] + rows;
          assert block[1..] == lines[i + 1..j];
          TablesStepTable(lines, i);
          Regroup(out, table, TablesFrom(lines, j));
          out := out + table;
          i := j;
          continue;
        }
      }
      TablesStepCopy(lines, i);
      Regroup(out, [line], TablesFrom(lines, i + 1));
      out := out + [line];
      i := i + 1;
    }
  }

  /** `convert_ascii_tables_to_markdown`: split into lines, convert, join with newlines. */
  method ConvertAsciiTables(md: string) returns (r: string)
    ensures r == ConvertAsciiTablesSpec(md)
  {
    var out := TablesLoop(SplitLines(md));
    r := Join(out, "\n");
  }

  /** Without a wide gap anywhere, every line is copied as it is. */
  lemma {:induction false} TablesIdentity(lines: seq<string>, i: nat)
    requires i <= |lines|
    requires forall k :: i <= k < |lines| ==> !HasWideGap(lines[k])
    ensures TablesFrom(lines, i) == lines[i..]
    decreases |lines| - i
  {
    if i < |lines| {
      TablesIdentity(lines, i + 1);
      assert lines[i..] == [lines[i]] + lines[i + 1..];
    }
  }

  /** A non-space character survives `rstrip`. */
  lemma {:induction false} NonSpaceKeptRight(s: string, j: nat)
    requires j < |s| && !IsSpace(s[j])
    ensures j < |RStrip(s)|
    decreases |s|
  {
    if IsSpace(s[|s| - 1]) {
      NonSpaceKeptRight(s[..|s| - 1], j);
    }
  }

  /** A non-space character survives `lstrip`. */
  lemma {:induction false} NonSpaceKeptLeft(s: string, i: nat)
    requires i < |s| && !IsSpace(s[i])
    ensures |s| - |LStrip(s)| <= i
    decreases |s|
  {
    if IsSpace(s[0]) {
      NonSpaceKeptLeft(s[1..], i - 1);
    }
  }

  /** A wide gap is still in place after `rstrip`. */
  lemma GapAfterRStrip(s: string, i: nat, j: nat)
    requires Gap(s, i, j)
    ensures Gap(RStrip(s), i, j)
  {
    NonSpaceKeptRight(s, j);
    RStripPrefix(s);
  }

  /** A wide gap is still there after `lstrip`, shifted by what was dropped. */
  lemma GapAfterLStrip(s: string, i: nat, j: nat)
    requires Gap(s, i, j)
    ensures |s| - |LStrip(s)| <= i && Gap(LStrip(s), i - (|s| - |LStrip(s)|), j - (|s| - |LStrip(s)|))
  {
    NonSpaceKeptLeft(s, i);
    LStripSuffix(s);
  }

  /** A wide gap between two cells is still there after `strip`. */
  lemma GapAfterStrip(s: string, i: nat, j: nat)
    requires Gap(s, i, j)
    ensures exists i', j' :: 0 <= i' < j' < |Strip(s)| && Gap(Strip(s), i', j')
  {
    var r := RStrip(s);
    GapAfterRStrip(s, i, j);
    GapAfterLStrip(r, i, j);
    var d := |r| - |LStrip(r)|;
    assert Strip(s) == LStrip(r);
    assert Gap(Strip(s), i - d, j - d);
  }

  /** Cutting at wide gaps turns a string with a wide gap inside it into at least two pieces. */
  lemma {:induction false} SplitAtGap(t: string, i: nat, j: nat, start: nat, p: nat)
    requires Gap(t, i, j) && start <= p <= i + 1
    ensures |SplitWideFrom(t, start, p)| >= 2
    decreases i + 1 - p
  {
    if p == i + 1 {
      assert SpaceRun(t, p) >= 2;
    } else if !(IsSpace(t[p]) && SpaceRun(t, p) >= 2) {
      SplitAtGap(t, i, j, start, p + 1);
    }
  }

  /**
   * A line that starts a block always has more than one column, so the
   * `len(cols) > 1` test never sends a detected header back to be copied.
   */
  lemma WideGapColumns(line: string)
    requires HasWideGap(line)
    ensures |Cells(line)| > 1
  {
    var i, j :| Gap(line, i, j);
    GapAfterStrip(line, i, j);
    var i', j' :| 0 <= i' < j' < |Strip(line)| && Gap(Strip(line), i', j');
    SplitAtGap(Strip(line), i', j', 0, 0);
  }
}
