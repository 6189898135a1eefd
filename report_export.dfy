/** `exportAsCSV` (src/services/ReportExportService.ts): a fixed header line, then one line per
    raw request metric, its six fields joined by commas and neither quoted nor escaped.
    JavaScript's rendering of a fractional number and `Date.prototype.toISOString` are
    parameters of the model. */
module ReportExport {
  import opened PerfModel
  import Text

  /** The header row, without its line break. It is written in four pieces because the
      verifier reads the characters of short literals only, and `HeaderBreaks` needs to
      know that none of them is a line break. */
  const HeaderLine: string := "Endpoint,Method" + ",Status Code" + ",Response Time (ms)" + ",Timestamp,Success"
  const Header: string := HeaderLine + "\n"

  /** The six cells of a metric's row, in column order. */
  function Fields(m: RequestMetric, numberText: real -> string, isoText: int -> string): (fs: seq<string>)
    ensures |fs| == 6
  {
    [m.endpoint, m.httpMethod, Text.IntToString(m.statusCode), numberText(m.responseTime),
     isoText(m.timestamp), Text.BoolToString(m.success)]
  }

  /** `[...].join(',')` */
  function Row(m: RequestMetric, numberText: real -> string, isoText: int -> string): string {
    Text.Join(Fields(m, numberText, isoText), ",")
  }

  /** The rows of the metrics, in input order. */
  function RowTexts(ms: seq<RequestMetric>, numberText: real -> string, isoText: int -> string): (rs: seq<string>)
    ensures |rs| == |ms|
  {
    seq(|ms|, i requires 0 <= i < |ms| => Row(ms[i], numberText, isoText))
  }

  /** The lines after the header: each row followed by `'\n'`, in order. */
  function Lines(rows: seq<string>): string {
    if rows == [] then "" else Lines(rows[..|rows| - 1]) + rows[|rows| - 1] + "\n"
  }

  /** The text `exportAsCSV` is meant to return. */
  function Csv(ms: seq<RequestMetric>, numberText: real -> string, isoText: int -> string): string {
    Header + Lines(RowTexts(ms, numberText, isoText))
  }

  /** `exportAsCSV(result)` over `result.rawRequestMetrics`: `csv += row + '\n'` per metric. */
  method ExportAsCsv(ms: seq<RequestMetric>, numberText: real -> string, isoText: int -> string) returns (csv: string)
    ensures csv == Csv(ms, numberText, isoText)
  {
    csv := Header;
    for i := 0 to |ms|
      invariant csv == Header + Lines(RowTexts(ms[..i], numberText, isoText))
    {
      var row := Text.Join(Fields(ms[i], numberText, isoText), ",");
      RowTextsStep(ms, i, numberText, isoText);
      csv := csv + row + "\n";
    }
    assert ms[..|ms|] == ms;
  }

  lemma RowTextsStep(ms: seq<RequestMetric>, i: nat, numberText: real -> string, isoText: int -> string)
    requires i < |ms|
    ensures Header + Lines(RowTexts(ms[..i + 1], numberText, isoText))
            == (Header + Lines(RowTexts(ms[..i], numberText, isoText))) + Row(ms[i], numberText, isoText) + "\n"
  {
    var rs := RowTexts(ms[..i + 1], numberText, isoText);
    var prev := Lines(RowTexts(ms[..i], numberText, isoText));
    var row := Row(ms[i], numberText, isoText);
    assert rs[..i] == RowTexts(ms[..i], numberText, isoText);
    assert Lines(rs) == prev + row + "\n";
    assert Header + (prev + row + "\n") == (Header + prev) + row + "\n";
  }

  // ------------------------------------------------------------------
  // Properties

  /** The export begins with exactly the header line, whatever the metrics. */
  lemma CsvStartsWithHeader(ms: seq<RequestMetric>, numberText: real -> string, isoText: int -> string)
    ensures var csv := Csv(ms, numberText, isoText);
            |csv| >= |Header| && csv[..|Header|] == Header
  {
    var csv := Csv(ms, numberText, isoText);
    assert csv[..|Header|] == Header;
  }

  /** The lines of a concatenation are the lines of its parts, one after the other. */
  lemma {:induction false} LinesConcat(a: seq<string>, b: seq<string>)
    ensures Lines(a + b) == Lines(a) + Lines(b)
  {
    if b == [] {
      assert a + b == a;
    } else {
      var init, last := b[..|b| - 1], b[|b| - 1];
      LinesConcat(a, init);
      assert (a + b)[..|a + b| - 1] == a + init;
      assert (a + b)[|a + b| - 1] == last;
      assert Lines(a + b) == Lines(a + init) + last + "\n";
      assert Lines(b) == Lines(init) + last + "\n";
    }
  }

  /** One row per metric, in input order: the export of `a + b` is that of `a` followed by
      the lines of `b`'s rows. */
  lemma CsvConcat(a: seq<RequestMetric>, b: seq<RequestMetric>, numberText: real -> string, isoText: int -> string)
    ensures Csv(a + b, numberText, isoText)
            == Csv(a, numberText, isoText) + Lines(RowTexts(b, numberText, isoText))
  {
    var ra, rb := RowTexts(a, numberText, isoText), RowTexts(b, numberText, isoText);
    assert RowTexts(a + b, numberText, isoText) == ra + rb;
    LinesConcat(ra, rb);
  }

  /** A single metric gives the header, its row and a line break. */
  lemma CsvSingle(m: RequestMetric, numberText: real -> string, isoText: int -> string)
    ensures Csv([m], numberText, isoText) == Header + Row(m, numberText, isoText) + "\n"
  {
    var one := RowTexts([m], numberText, isoText);
    var row := Row(m, numberText, isoText);
    assert one == [row];
    assert one[..0] == [];
    assert Lines(one) == "" + row + "\n";
    assert "" + row == row;
  }

  /** The export never ends in the middle of a line. */
  lemma CsvEndsWithNewline(ms: seq<RequestMetric>, numberText: real -> string, isoText: int -> string)
    ensures var csv := Csv(ms, numberText, isoText);
            |csv| > 0 && csv[|csv| - 1] == '\n'
  {
  }

  /** Occurrences of `c` over all of the cells `parts`. */
  function CharsIn(parts: seq<string>, c: char): nat {
    if parts == [] then 0 else CharsIn(parts[..|parts| - 1], c) + Text.CountChar(parts[|parts| - 1], c)
  }

  /** Joining with a one-character separator adds that character between the parts and
      nothing else. */
  lemma {:induction false} JoinCountChar(parts: seq<string>, sep: char, c: char)
    requires parts != []
    ensures Text.CountChar(Text.Join(parts, [sep]), c) == CharsIn(parts, c) + (if c == sep then |parts| - 1 else 0)
  {
    if |parts| == 1 {
      assert parts[..0] == [];
    } else {
      var init := parts[..|parts| - 1];
      var last := parts[|parts| - 1];
      JoinCountChar(init, sep, c);
      Text.CountCharAppend(Text.Join(init, [sep]), [sep], c);
      Text.CountCharAppend(Text.Join(init, [sep]) + [sep], last, c);
      assert Text.CountChar([sep], c) == (if c == sep then 1 else 0) by {
        assert [sep][..0] == [];
      }
    }
  }

  /** Cells are not quoted or escaped: a row holds exactly five separating commas beyond
      the commas of its cells, and no line break beyond theirs. */
  lemma RowSeparators(m: RequestMetric, numberText: real -> string, isoText: int -> string)
    ensures var fs := Fields(m, numberText, isoText);
            Text.CountChar(Row(m, numberText, isoText), ',') == 5 + CharsIn(fs, ',')
            && Text.CountChar(Row(m, numberText, isoText), '\n') == CharsIn(fs, '\n')
  {
    JoinCountChar(Fields(m, numberText, isoText), ',', ',');
    JoinCountChar(Fields(m, numberText, isoText), ',', '\n');
  }

  /** A join of two or more parts opens with the first part and the separator. */
  lemma {:induction false} JoinOpens(parts: seq<string>, sep: string)
    requires |parts| >= 2
    ensures var j := Text.Join(parts, sep);
            |j| >= |parts[0] + sep| && j[..|parts[0] + sep|] == parts[0] + sep
  {
    var init := parts[..|parts| - 1];
    var head := parts[0] + sep;
    if |parts| == 2 {
      assert init == [parts[0]];
    } else {
      JoinOpens(init, sep);
      assert init[0] == parts[0];
    }
    var j := Text.Join(parts, sep);
    assert j == Text.Join(init, sep) + sep + parts[|parts| - 1];
    assert j[..|head|] == (Text.Join(init, sep) + sep + parts[|parts| - 1])[..|head|];
  }

  /** The endpoint cell opens the row verbatim, followed by the first separator. */
  lemma RowBeginsWithEndpoint(m: RequestMetric, numberText: real -> string, isoText: int -> string)
    ensures var row := Row(m, numberText, isoText);
            |row| > |m.endpoint| && row[..|m.endpoint|] == m.endpoint && row[|m.endpoint|] == ','
  {
    var row := Row(m, numberText, isoText);
    JoinOpens(Fields(m, numberText, isoText), ",");
    assert row[..|m.endpoint| + 1] == m.endpoint + ",";
    assert row[..|m.endpoint|] == (m.endpoint + ",")[..|m.endpoint|];
  }

  /** Each line of `Lines` adds its own line break. */
  lemma {:induction false} LinesBreaks(rows: seq<string>)
    ensures Text.CountChar(Lines(rows), '\n') == |rows| + CharsIn(rows, '\n')
  {
    if rows != [] {
      var init := rows[..|rows| - 1];
      var last := rows[|rows| - 1];
      LinesBreaks(init);
      Text.CountCharAppend(Lines(init), last, '\n');
      Text.CountCharAppend(Lines(init) + last, "\n", '\n');
      assert Text.CountChar("\n", '\n') == 1 by {
        assert "\n"[..0] == [];
      }
    }
  }

  /** Cells without `c` give a list with no `c`. */
  lemma {:induction false} CharsInNone(parts: seq<string>, c: char)
    requires forall i :: 0 <= i < |parts| ==> Text.CountChar(parts[i], c) == 0
    ensures CharsIn(parts, c) == 0
  {
    if parts != [] {
      CharsInNone(parts[..|parts| - 1], c);
    }
  }

  lemma HeaderBreaks()
    ensures Text.CountChar(Header, '\n') == 1
  {
    assert '\n' !in HeaderLine;
    Text.CountCharAbsent(HeaderLine, '\n');
    Text.CountCharAppend(HeaderLine, "\n", '\n');
    assert "\n"[..0] == [];
  }

  /** Line breaks: the header's, one per metric, and those inside cells. */
  lemma CsvLineBreaks(ms: seq<RequestMetric>, numberText: real -> string, isoText: int -> string)
    ensures var rows := RowTexts(ms, numberText, isoText);
            Text.CountChar(Csv(ms, numberText, isoText), '\n') == |ms| + 1 + CharsIn(rows, '\n')
  {
    var rows := RowTexts(ms, numberText, isoText);
    HeaderBreaks();
    LinesBreaks(rows);
    Text.CountCharAppend(Header, Lines(rows), '\n');
  }

  /** With no line break in any cell, `n` metrics give exactly `n + 1` lines, each ended by
      a line break. */
  lemma CsvLineCount(ms: seq<RequestMetric>, numberText: real -> string, isoText: int -> string)
    requires forall i :: 0 <= i < |ms| ==> CharsIn(Fields(ms[i], numberText, isoText), '\n') == 0
    ensures Text.CountChar(Csv(ms, numberText, isoText), '\n') == |ms| + 1
  {
    var rows := RowTexts(ms, numberText, isoText);
    CsvLineBreaks(ms, numberText, isoText);
    forall i | 0 <= i < |rows| ensures Text.CountChar(rows[i], '\n') == 0 {
      RowSeparators(ms[i], numberText, isoText);
      assert rows[i] == Row(ms[i], numberText, isoText);
    }
    CharsInNone(rows, '\n');
  }
}
