/**
 * `convert_table_to_markdown`, nested in docnexus/app.py:529-551: the
 * lines that split into several columns become a pipe table whose rows,
 * header included, are padded with empty cells to the widest row.
 */
module ContextTable {
  import opened Text
  import opened ContextDetect
  import SmartTables

  /** The row padded with empty cells up to `n` cells. */
  function Pad(row: seq<string>, n: nat): (r: seq<string>)
    ensures |r| == if |row| >= n then |row| else n
    ensures forall k :: 0 <= k < |row| ==> r[k] == row[k]
    ensures forall k :: |row| <= k < |r| ==> r[k] == ""
    decreases n - |row|
  {
    if |row| >= n then row else Pad(row + [""], n)
  }

  /** The data rows after the header, each padded to `n` cells. */
  function RowLines(rs: seq<seq<string>>, n: nat): (r: seq<string>)
    ensures |r| == |rs|
    decreases |rs|
  {
    if rs == [] then [] else RowLines(rs[..|rs| - 1], n) + [SmartTables.TableRow(Pad(rs[|rs| - 1], n))]
  }

  /** `table_lines`: the padded header, `max_cols` separator cells, the padded data rows. */
  function TableLines(rows: seq<seq<string>>): seq<string>
    requires rows != []
  {
    var m := MaxCols(rows);
    [SmartTables.TableRow(Pad(rows[0], m)), SmartTables.TableRow(SmartTables.Dashes(m))] + RowLines(rows[1..], m)
  }

  /** `convert_table_to_markdown`: the table between two newlines. */
  function ConvertTableSpec(lines: seq<string>): string
    requires TableRows(lines) != []
  {
    "\n" + Join(TableLines(TableRows(lines)), "\n") + "\n"
  }

  /** The loop that collects the cells of every line with more than one column. */
  method CollectRows(lines: seq<string>) returns (rows: seq<seq<string>>)
    ensures rows == TableRows(lines)
  {
    rows := [];
    var k: nat := 0;
    while k < |lines|
      invariant k <= |lines|
      invariant rows == TableRows(lines[..k])
      decreases |lines| - k
    {
      var cols := RowCells(lines[k]);
      assert lines[..k + 1][..k] == lines[..k];
      if |cols| > 1 {
        rows := rows + [cols];
      }
      k := k + 1;
    }
    assert lines[..k] == lines;
  }

  /** The padding loop: empty cells appended until the row has `max_cols` cells. */
  method PadRow(row: seq<string>, n: nat) returns (r: seq<string>)
    ensures r == Pad(row, n)
  {
    r := row;
    while |r| < n
      invariant Pad(r, n) == Pad(row, n)
      decreases n - |r|
    {
      r := r + [""];
    }
  }

  /** `convert_table_to_markdown`. */
  method ConvertTable(lines: seq<string>) returns (r: string)
    requires TableRows(lines) != []
    ensures r == ConvertTableSpec(lines)
  {
    var rows := CollectRows(lines);
    var m := MaxCols(rows);
    var header := PadRow(rows[0], m);
    var out := [SmartTables.TableRow(header), SmartTables.TableRow(SmartTables.Dashes(m))];
    ghost var head := out;
    var k: nat := 1;
    while k < |rows|
      invariant 1 <= k <= |rows|
      invariant out == head + RowLines(rows[1..k], m)
      decreases |rows| - k
    {
      var row := PadRow(rows[k], m);
      assert rows[1..k + 1][..k - 1] == rows[1..k];
      out := out + [SmartTables.TableRow(row)];
      k := k + 1;
    }
    assert rows[1..k] == rows[1..];
    r := "\n" + Join(out, "\n") + "\n";
  }

  /** Every row of the table, header included, has exactly `max_cols` cells: its own, then empty ones. */
  lemma PaddedWidth(rows: seq<seq<string>>, k: nat)
    requires rows != [] && k < |rows|
    ensures var p := Pad(rows[k], MaxCols(rows));
      |p| == MaxCols(rows) && p[..|rows[k]|] == rows[k] && forall j :: |rows[k]| <= j < |p| ==> p[j] == ""
  {
  }

  /** The data rows are the padded rows after the header, in order. */
  lemma {:induction false} RowLinesAt(rs: seq<seq<string>>, n: nat, k: nat)
    requires k < |rs|
    ensures RowLines(rs, n)[k] == SmartTables.TableRow(Pad(rs[k], n))
    decreases |rs|
  {
    if k < |rs| - 1 {
      assert rs[..|rs| - 1][k] == rs[k];
      RowLinesAt(rs[..|rs| - 1], n, k);
    }
  }

  /** One line per row plus the separator; the separator has one `---` cell per column. */
  lemma TableShape(rows: seq<seq<string>>)
    requires rows != []
    ensures |TableLines(rows)| == |rows| + 1
    ensures TableLines(rows)[1] == SmartTables.TableRow(SmartTables.Dashes(MaxCols(rows)))
    ensures TableLines(rows)[0] == SmartTables.TableRow(Pad(rows[0], MaxCols(rows)))
    ensures forall k :: 1 <= k < |rows| ==> TableLines(rows)[k + 1] == SmartTables.TableRow(Pad(rows[k], MaxCols(rows)))
  {
    var m := MaxCols(rows);
    forall k | 1 <= k < |rows|
      ensures TableLines(rows)[k + 1] == SmartTables.TableRow(Pad(rows[k], m))
    {
      RowLinesAt(rows[1..], m, k - 1);
    }
  }
}
