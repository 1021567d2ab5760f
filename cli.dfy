/**
 * The terminal front end: the handle check, colouring a status with SGR escape
 * sequences, measuring text without them, and laying out the results table.
 */
module Cli {
  import opened Wrappers
  import opened Text
  import opened Handles
  import Checker
  import Platforms

  // ---------------------------------------------------------------------------
  // Colours

  const Esc: char := '\U{1B}'

  /** The escape sequence `ESC [ params m`. */
  function Sgr(params: string): string {
    [Esc, '['] + params + "m"
  }

  // The SGR sequences colorama emits.
  const Reset: string := Sgr("0")
  const Green: string := Sgr("32")
  const Red: string := Sgr("31")
  const Yellow: string := Sgr("33")
  const Magenta: string := Sgr("35")

  /** `color(text, code)`. */
  function Color(text: string, code: string): string {
    code + text + Reset
  }

  /** The colour `status_color` picks: green, red, yellow for the three verdicts, magenta for anything else. */
  function StatusCode(status: string): string {
    if status == "available" then Green
    else if status == "taken" then Red
    else if status == "unknown" then Yellow
    else Magenta
  }

  /** `status_color(status)`. */
  function StatusColor(status: string): string {
    if status == "available" then Color(status, Green)
    else if status == "taken" then Color(status, Red)
    else if status == "unknown" then Color(status, Yellow)
    else Color(status, Magenta)
  }

  // ---------------------------------------------------------------------------
  // Visible length: `ANSI_RE = \x1b\[[0-9;]*m` removed, the rest counted

  predicate IsParamChar(c: char) {
    ('0' <= c <= '9') || c == ';'
  }

  /** Length of the longest prefix made of `[0-9;]`. */
  function ParamRun(s: string): (n: nat)
    ensures n <= |s|
    ensures forall i :: 0 <= i < n ==> IsParamChar(s[i])
    ensures n < |s| ==> !IsParamChar(s[n])
    decreases |s|
  {
    if s != [] && IsParamChar(s[0]) then 1 + ParamRun(s[1..]) else 0
  }

  /**
   * Length of the escape sequence `ESC [ [0-9;]* m` at the start of `s`, or 0
   * when `s` does not start with one. The run of parameters is taken greedily;
   * since `m` is not a parameter character, backtracking could not help.
   */
  function SgrLength(s: string): (n: nat)
    ensures n == 0 || (3 <= n <= |s| && s[0] == Esc && s[n - 1] == 'm')
  {
    if |s| >= 2 && s[0] == Esc && s[1] == '[' then
      var k := 2 + ParamRun(s[2..]);
      if k < |s| && s[k] == 'm' then k + 1 else 0
    else 0
  }

  /** `ANSI_RE.sub("", text)`: scan left to right, deleting each escape sequence found. */
  function StripAnsi(s: string): (r: string)
    ensures |r| <= |s|
    decreases |s|
  {
    if s == [] then []
    else
      var n := SgrLength(s);
      if n > 0 then StripAnsi(s[n..]) else [s[0]] + StripAnsi(s[1..])
  }

  /** `visible_len(text)`. */
  function VisibleLen(s: string): nat {
    |StripAnsi(s)|
  }

  predicate NoEsc(s: string) {
    forall i :: 0 <= i < |s| ==> s[i] != Esc
  }

  /** Text without ESC is left alone, so its visible length is its length. */
  lemma {:induction false} StripNoEsc(s: string)
    requires NoEsc(s)
    ensures StripAnsi(s) == s && VisibleLen(s) == |s|
    decreases |s|
  {
    if s != [] {
      StripNoEsc(s[1..]);
      assert [s[0]] + s[1..] == s;
    }
  }

  /** A first character other than ESC is always kept. */
  lemma StripKeepsHead(s: string)
    requires s != [] && s[0] != Esc
    ensures StripAnsi(s) == [s[0]] + StripAnsi(s[1..])
  {
    assert SgrLength(s) == 0;
  }

  /** Text without ESC in front cannot begin an escape sequence, so it survives whole. */
  lemma {:induction false} StripNoEscPrefix(a: string, b: string)
    requires NoEsc(a)
    ensures StripAnsi(a + b) == a + StripAnsi(b)
    decreases |a|
  {
    if a == [] {
      assert a + b == b;
    } else {
      var s := a + b;
      StripKeepsHead(s);
      assert s[1..] == a[1..] + b;
      StripNoEscPrefix(a[1..], b);
      assert [a[0]] + (a[1..] + StripAnsi(b)) == ([a[0]] + a[1..]) + StripAnsi(b);
      assert [a[0]] + a[1..] == a;
    }
  }

  /** A character that can neither continue nor complete an escape sequence begun before it. */
  predicate IsBreak(c: char) {
    !IsParamChar(c) && c != 'm' && c != '['
  }

  lemma {:induction false} ParamRunConcat(a: string, b: string)
    requires b == [] || !IsParamChar(b[0])
    ensures ParamRun(a + b) == ParamRun(a)
    decreases |a|
  {
    if a == [] {
      assert a + b == b;
    } else if IsParamChar(a[0]) {
      assert (a + b)[1..] == a[1..] + b;
      ParamRunConcat(a[1..], b);
    }
  }

  lemma SgrLengthConcat(a: string, b: string)
    requires a != [] && (b == [] || IsBreak(b[0]))
    ensures SgrLength(a + b) == SgrLength(a)
  {
    var s := a + b;
    if |a| >= 2 && a[0] == Esc && a[1] == '[' {
      assert s[2..] == a[2..] + b;
      ParamRunConcat(a[2..], b);
    }
  }

  /** No escape sequence straddles a break, so text split there is stripped piece by piece. */
  lemma {:induction false} StripConcat(a: string, b: string)
    requires b == [] || IsBreak(b[0])
    ensures StripAnsi(a + b) == StripAnsi(a) + StripAnsi(b)
    decreases |a|
  {
    if a == [] {
      assert a + b == b;
    } else {
      SgrLengthConcat(a, b);
      var n := SgrLength(a);
      if n > 0 {
        assert (a + b)[n..] == a[n..] + b;
        StripConcat(a[n..], b);
      } else {
        assert (a + b)[1..] == a[1..] + b;
        StripConcat(a[1..], b);
      }
    }
  }

  /** A complete escape sequence in front of the text is invisible. */
  lemma StripSgrPrefix(code: string, text: string)
    requires code != [] && SgrLength(code) == |code|
    ensures StripAnsi(code + text) == StripAnsi(text)
  {
    var s := code + text;
    assert s[..|code|] == code;
    assert SgrLength(s) == |code| by {
      var k := 2 + ParamRun(code[2..]);
      assert code[k] == 'm';
      assert s[2..] == code[2..] + text;
      ParamRunConcat(code[2..k], code[k..] + text);
      ParamRunConcat(code[2..k], code[k..]);
      assert code[2..] == code[2..k] + code[k..];
      assert s[2..] == code[2..k] + (code[k..] + text);
    }
    assert s[|code|..] == text;
  }

  /** `ESC [ params m` with only digits and `;` as parameters is one whole escape sequence. */
  lemma SgrOf(params: string)
    requires forall i :: 0 <= i < |params| ==> IsParamChar(params[i])
    ensures SgrLength(Sgr(params)) == |Sgr(params)|
  {
    var s := Sgr(params);
    assert s[2..] == params + "m";
    ParamRunConcat(params, "m");
    assert ParamRun(params) == |params|;
  }

  /** The reset sequence is one whole escape sequence, and nothing of it is visible. */
  lemma ResetInvisible()
    ensures SgrLength(Reset) == |Reset| && StripAnsi(Reset) == []
  {
    SgrOf("0");
    assert Reset[|Reset|..] == [];
  }

  /** Every colour `status_color` picks is one whole escape sequence. */
  lemma StatusCodeIsSgr(status: string)
    ensures StatusCode(status) != [] && SgrLength(StatusCode(status)) == |StatusCode(status)|
  {
    if status == "available" {
      SgrOf("32");
    } else if status == "taken" {
      SgrOf("31");
    } else if status == "unknown" {
      SgrOf("33");
    } else {
      SgrOf("35");
    }
  }

  /** Wrapping text in a complete escape sequence and a reset adds nothing visible. */
  lemma ColorVisible(text: string, code: string)
    requires code != [] && SgrLength(code) == |code|
    ensures VisibleLen(Color(text, code)) == VisibleLen(text)
  {
    ResetInvisible();
    assert Color(text, code) == code + (text + Reset);
    StripSgrPrefix(code, text + Reset);
    StripConcat(text, Reset);
  }

  /**
   * `status_color` wraps the status as colour, text, reset, with the colour
   * chosen by the status; the wrapping adds nothing visible.
   */
  lemma StatusColorFacts(status: string)
    ensures StatusColor(status) == StatusCode(status) + status + Reset
    ensures VisibleLen(StatusColor(status)) == VisibleLen(status)
  {
    StatusCodeIsSgr(status);
    ColorVisible(status, StatusCode(status));
  }

  // ---------------------------------------------------------------------------
  // Rows

  /** `max(0, width - visible_len(text))`. */
  function PadOf(text: string, width: int): nat {
    if width - VisibleLen(text) > 0 then width - VisibleLen(text) else 0
  }

  /** One cell of `format_row`: the text followed by its padding. */
  function Cell(text: string, width: int): string {
    text + Repeat(' ', PadOf(text, width))
  }

  /** The cells `format_row` builds: `zip` stops at the shorter of the two lists. */
  function Cells(cols: seq<string>, widths: seq<int>): (cells: seq<string>)
    ensures |cells| == if |cols| <= |widths| then |cols| else |widths|
  {
    var n := if |cols| <= |widths| then |cols| else |widths|;
    seq(n, i requires 0 <= i < n => Cell(cols[i], widths[i]))
  }

  /** `format_row(cols, widths)`. */
  method FormatRow(cols: seq<string>, widths: seq<int>) returns (row: string)
    ensures row == Join(Cells(cols, widths), "  ")
  {
    var parts: seq<string> := [];
    var n := if |cols| <= |widths| then |cols| else |widths|;
    for i := 0 to n
      invariant parts == Cells(cols, widths)[..i]
    {
      var text := cols[i];
      var pad := if widths[i] - VisibleLen(text) > 0 then widths[i] - VisibleLen(text) else 0;
      parts := parts + [text + Repeat(' ', pad)];
    }
    assert Cells(cols, widths)[..n] == Cells(cols, widths);
    row := Join(parts, "  ");
  }

  /** A cell keeps its whole text (no truncation) and is at least as wide as its column. */
  lemma CellFacts(text: string, width: int)
    ensures Cell(text, width)[..|text|] == text
    ensures VisibleLen(Cell(text, width)) == if width > VisibleLen(text) then width else VisibleLen(text)
  {
    var spaces := Repeat(' ', PadOf(text, width));
    assert Cell(text, width)[..|text|] == text;
    StripConcat(text, spaces);
    StripNoEsc(spaces);
  }

  /** The visible lengths of the parts, added up. */
  function TotalVisible(parts: seq<string>): nat
    decreases |parts|
  {
    if parts == [] then 0 else VisibleLen(parts[0]) + TotalVisible(parts[1..])
  }

  /** The visible length of joined parts: theirs, plus two per separator. */
  lemma {:induction false} JoinVisible(parts: seq<string>)
    requires parts != []
    ensures VisibleLen(Join(parts, "  ")) == TotalVisible(parts) + 2 * (|parts| - 1)
    decreases |parts|
  {
    if |parts| > 1 {
      var rest := Join(parts[1..], "  ");
      JoinVisible(parts[1..]);
      assert parts[0] + "  " + rest == parts[0] + ("  " + rest);
      StripConcat(parts[0], "  " + rest);
      StripNoEscPrefix("  ", rest);
    } else {
      assert parts[1..] == [];
    }
  }

  // ---------------------------------------------------------------------------
  // The results table

  /** One entry of the results list; `None` stands for a key the entry lacks. */
  datatype Item = Item(platform: Option<string>, url: Option<string>, status: Option<string>)

  /**
   * The row of one result: its platform or "-", its coloured status ("unknown"
   * when missing), and its link, or "-" when the link is missing or empty.
   */
  function RowOf(item: Item): (row: seq<string>)
    ensures |row| == 3
  {
    [ item.platform.GetOr("-"),
      StatusColor(item.status.GetOr("unknown")),
      if item.url.Some? && item.url.value != [] then item.url.value else "-" ]
  }

  /**
   * A missing platform shows as "-", a missing status as a coloured "unknown"
   * that is as wide as the word, and a missing or empty link as "-"; a cell is
   * never empty.
   */
  lemma RowFacts(item: Item)
    ensures var row := RowOf(item);
      var status := if item.status.Some? then item.status.value else "unknown";
      && (item.platform.None? ==> row[0] == "-")
      && row[1] == StatusCode(status) + status + Reset
      && VisibleLen(row[1]) == VisibleLen(status)
      && (row[2] == "-" <==> item.url.None? || item.url.value == [] || item.url.value == "-")
      && row[2] != []
  {
    StatusColorFacts(if item.status.Some? then item.status.value else "unknown");
  }

  function RowsOf(results: seq<Item>): (rows: seq<seq<string>>)
    ensures |rows| == |results|
    ensures forall i :: 0 <= i < |rows| ==> |rows[i]| == 3
  {
    seq(|results|, i requires 0 <= i < |results| => RowOf(results[i]))
  }

  /** The largest visible length in column `col`, or 0 for no rows. */
  function MaxVisible(rows: seq<seq<string>>, col: nat): (m: nat)
    requires forall i :: 0 <= i < |rows| ==> col < |rows[i]|
    ensures forall i :: 0 <= i < |rows| ==> VisibleLen(rows[i][col]) <= m
    ensures rows == [] ==> m == 0
    ensures rows != [] ==> exists i :: 0 <= i < |rows| && m == VisibleLen(rows[i][col])
    decreases |rows|
  {
    if rows == [] then 0
    else
      var rest := MaxVisible(rows[1..], col);
      if |rows| > 1 && rest > VisibleLen(rows[0][col]) then rest else VisibleLen(rows[0][col])
  }

  /**
   * The width of column `col`: at least the floor, at least every cell of the
   * column, and no wider than both require.
   */
  function ColumnWidth(rows: seq<seq<string>>, col: nat, floor: nat): (w: nat)
    requires forall i :: 0 <= i < |rows| ==> col < |rows[i]|
    ensures w >= floor
    ensures forall i :: 0 <= i < |rows| ==> VisibleLen(rows[i][col]) <= w
    ensures w == floor || exists i :: 0 <= i < |rows| && w == VisibleLen(rows[i][col])
  {
    var widest := if rows != [] then MaxVisible(rows, col) else floor;
    if floor >= widest then floor else widest
  }

  const Headers: seq<string> := ["Platform", "Status", "Link"]

  /** The three column widths of `print_results`: floors 8, 6 and 4. */
  function Widths(rows: seq<seq<string>>): (ws: seq<int>)
    requires forall i :: 0 <= i < |rows| ==> |rows[i]| == 3
    ensures |ws| == 3
  {
    [ColumnWidth(rows, 0, 8), ColumnWidth(rows, 1, 6), ColumnWidth(rows, 2, 4)]
  }

  /** The loop of `print_results` that builds one row per result. */
  method BuildRows(results: seq<Item>) returns (rows: seq<seq<string>>)
    ensures rows == RowsOf(results)
  {
    rows := [];
    for i := 0 to |results|
      invariant rows == RowsOf(results)[..i]
    {
      var item := results[i];
      var link := if item.url.Some? && item.url.value != [] then item.url.value else "-";
      var status := StatusColor(item.status.GetOr("unknown"));
      rows := rows + [[item.platform.GetOr("-"), status, link]];
    }
    assert RowsOf(results)[..|results|] == RowsOf(results);
  }

  /** One printed row: the cells padded to the widths, joined by two spaces. */
  function Line(cols: seq<string>, widths: seq<int>): string {
    Join(Cells(cols, widths), "  ")
  }

  /** The dash row: a run of `-` as long as each column. */
  function Rule(widths: seq<int>): (dashes: seq<string>)
    ensures |dashes| == |widths|
  {
    seq(|widths|, i requires 0 <= i < |widths| => Repeat('-', if widths[i] > 0 then widths[i] else 0))
  }

  /** The lines `print_results` prints after its title: header, dash row, one row per result. */
  function Table(results: seq<Item>): seq<string> {
    var rows := RowsOf(results);
    TableOf(Headers, rows, Widths(rows))
  }

  function TableOf(header: seq<string>, rows: seq<seq<string>>, ws: seq<int>): (t: seq<string>)
    ensures |t| == |rows| + 2
  {
    seq(|rows| + 2, i requires 0 <= i < |rows| + 2 =>
      if i == 0 then Line(header, ws) else if i == 1 then Line(Rule(ws), ws) else Line(rows[i - 2], ws))
  }

  /** The table part of `print_results`. */
  method PrintResults(results: seq<Item>) returns (lines: seq<string>)
    ensures lines == Table(results)
  {
    var rows := BuildRows(results);
    var widths := Widths(rows);
    lines := FormatTable(Headers, rows, widths);
  }

  /** The printing half of `print_results`: header, dash row, then each row in order. */
  method FormatTable(header: seq<string>, rows: seq<seq<string>>, widths: seq<int>) returns (lines: seq<string>)
    ensures lines == TableOf(header, rows, widths)
  {
    var first := FormatRow(header, widths);
    var rule := FormatRow(Rule(widths), widths);
    lines := [first, rule];
    for i := 0 to |rows|
      invariant |lines| == i + 2 && lines[0] == first && lines[1] == rule
      invariant forall k :: 0 <= k < i ==> lines[k + 2] == Line(rows[k], widths)
    {
      var line := FormatRow(rows[i], widths);
      lines := lines + [line];
    }
    TableOfLines(header, rows, widths, lines);
  }

  /** A list of lines is the table when it has the header line, the dash line and the row lines in order. */
  lemma TableOfLines(header: seq<string>, rows: seq<seq<string>>, ws: seq<int>, lines: seq<string>)
    requires |lines| == |rows| + 2
    requires lines[0] == Line(header, ws) && lines[1] == Line(Rule(ws), ws)
    requires forall k :: 0 <= k < |rows| ==> lines[k + 2] == Line(rows[k], ws)
    ensures lines == TableOf(header, rows, ws)
  {
    var t := TableOf(header, rows, ws);
    forall k | 2 <= k < |lines|
      ensures lines[k] == t[k]
    {
      assert lines[(k - 2) + 2] == Line(rows[k - 2], ws);
    }
  }

  /** Three texts that fit their three columns make a line of the table's full visible width. */
  lemma LineWidth(cols: seq<string>, ws: seq<int>)
    requires |cols| == |ws| == 3
    requires forall j :: 0 <= j < 3 ==> VisibleLen(cols[j]) <= ws[j]
    ensures VisibleLen(Line(cols, ws)) == ws[0] + ws[1] + ws[2] + 4
  {
    var cells := Cells(cols, ws);
    CellFacts(cols[0], ws[0]);
    CellFacts(cols[1], ws[1]);
    CellFacts(cols[2], ws[2]);
    JoinVisible(cells);
    assert cells[1..][1..][1..] == [];
    assert TotalVisible(cells[1..][1..]) == VisibleLen(cells[2]);
    assert TotalVisible(cells[1..]) == VisibleLen(cells[1]) + VisibleLen(cells[2]);
  }

  /** Every cell fits the width computed for its column. */
  lemma ColumnsFit(rows: seq<seq<string>>)
    requires forall i :: 0 <= i < |rows| ==> |rows[i]| == 3
    ensures forall i, j :: 0 <= i < |rows| && 0 <= j < 3 ==> VisibleLen(rows[i][j]) <= Widths(rows)[j]
  {
    var ws := Widths(rows);
    forall i, j | 0 <= i < |rows| && 0 <= j < 3
      ensures VisibleLen(rows[i][j]) <= ws[j]
    {
      var floor := if j == 0 then 8 else if j == 1 then 6 else 4;
      assert ws[j] == ColumnWidth(rows, j, floor);
    }
  }

  /** Texts without escape sequences that fit their columns make a line of the full width. */
  lemma PlainLineWidth(cols: seq<string>, ws: seq<int>)
    requires |cols| == |ws| == 3
    requires forall j :: 0 <= j < 3 ==> NoEsc(cols[j]) && |cols[j]| <= ws[j]
    ensures VisibleLen(Line(cols, ws)) == ws[0] + ws[1] + ws[2] + 4
  {
    forall j | 0 <= j < 3
      ensures VisibleLen(cols[j]) <= ws[j]
    {
      StripNoEsc(cols[j]);
    }
    LineWidth(cols, ws);
  }

  /** The header row fits any widths at least the floors 8, 6 and 4. */
  lemma HeaderWidth(ws: seq<int>)
    requires |ws| == 3 && ws[0] >= 8 && ws[1] >= 6 && ws[2] >= 4
    ensures VisibleLen(Line(Headers, ws)) == ws[0] + ws[1] + ws[2] + 4
  {
    PlainLineWidth(Headers, ws);
  }

  /** The dash row is exactly as wide as the columns. */
  lemma RuleWidth(ws: seq<int>)
    requires |ws| == 3 && ws[0] >= 0 && ws[1] >= 0 && ws[2] >= 0
    ensures VisibleLen(Line(Rule(ws), ws)) == ws[0] + ws[1] + ws[2] + 4
  {
    PlainLineWidth(Rule(ws), ws);
  }

  /** Laid out with widths every cell fits, all lines of the table are equally wide. */
  lemma TableOfWidth(rows: seq<seq<string>>, ws: seq<int>)
    requires |ws| == 3 && ws[0] >= 8 && ws[1] >= 6 && ws[2] >= 4
    requires forall i :: 0 <= i < |rows| ==> |rows[i]| == 3
    requires forall i, j :: 0 <= i < |rows| && 0 <= j < 3 ==> VisibleLen(rows[i][j]) <= ws[j]
    ensures var t := TableOf(Headers, rows, ws);
      forall i :: 0 <= i < |t| ==> VisibleLen(t[i]) == ws[0] + ws[1] + ws[2] + 4
  {
    var t := TableOf(Headers, rows, ws);
    forall i | 0 <= i < |t|
      ensures VisibleLen(t[i]) == ws[0] + ws[1] + ws[2] + 4
    {
      if i == 0 {
        HeaderWidth(ws);
      } else if i == 1 {
        RuleWidth(ws);
      } else {
        LineWidth(rows[i - 2], ws);
      }
    }
  }

  /** Each row's line of the table starts with the row's first cell. */
  lemma TableOfFirstColumn(rows: seq<seq<string>>, ws: seq<int>)
    requires |ws| == 3
    requires forall i :: 0 <= i < |rows| ==> |rows[i]| == 3
    ensures var t := TableOf(Headers, rows, ws);
      forall i :: 0 <= i < |rows| ==> |rows[i][0]| <= |t[i + 2]| && t[i + 2][..|rows[i][0]|] == rows[i][0]
  {
    var t := TableOf(Headers, rows, ws);
    forall i | 0 <= i < |rows|
      ensures |rows[i][0]| <= |t[i + 2]| && t[i + 2][..|rows[i][0]|] == rows[i][0]
    {
      LineStartsWithFirst(rows[i], ws);
    }
  }

  /**
   * The printed table has two lines more than there are results, and every line
   * has the same visible length, so the columns line up whatever colour codes
   * the status cells carry; each result's line starts with its platform name.
   */
  lemma TableFacts(results: seq<Item>)
    ensures var t := Table(results);
      var ws := Widths(RowsOf(results));
      && |t| == |results| + 2
      && (forall i :: 0 <= i < |t| ==> VisibleLen(t[i]) == ws[0] + ws[1] + ws[2] + 4)
      && (forall i :: 0 <= i < |results| ==>
            var name := results[i].platform.GetOr("-");
            |name| <= |t[i + 2]| && t[i + 2][..|name|] == name)
  {
    var rows := RowsOf(results);
    var ws := Widths(rows);
    ColumnsFit(rows);
    TableOfWidth(rows, ws);
    TableOfFirstColumn(rows, ws);
    forall i | 0 <= i < |results|
      ensures rows[i][0] == results[i].platform.GetOr("-")
    {
    }
  }

  /** A line begins with its first column's whole text. */
  lemma LineStartsWithFirst(cols: seq<string>, ws: seq<int>)
    requires |cols| == |ws| == 3
    ensures |cols[0]| <= |Line(cols, ws)| && Line(cols, ws)[..|cols[0]|] == cols[0]
  {
    var cells := Cells(cols, ws);
    CellFacts(cols[0], ws[0]);
    assert Line(cols, ws) == cells[0] + "  " + Join(cells[1..], "  ");
  }

  // ---------------------------------------------------------------------------
  // Handle check

  /** `is_valid`: the length test first, then an early-return scan of the characters. */
  method IsValid(username: string) returns (ok: bool)
    ensures ok == ValidHandle(username)
  {
    if !(MinLength <= |username| <= MaxLength) {
      return false;
    }
    for i := 0 to |username|
      invariant forall k :: 0 <= k < i ==> IsHandleChar(username[k])
    {
      if !(IsAlnum(username[i]) || username[i] in "_.") {
        return false;
      }
    }
    return true;
  }

  // ---------------------------------------------------------------------------
  // One check from the prompt

  /** The checker's results as the entries `print_results` reads. */
  function ItemsOf(results: seq<Checker.CheckResult>): (items: seq<Item>)
    ensures |items| == |results|
  {
    seq(|results|, i requires 0 <= i < |results| =>
      Item(Some(results[i].platform), Some(results[i].url), Some(results[i].status.Name())))
  }

  /** What a `for item in ...` loop over a value can yield: a dictionary key, or a result entry. */
  datatype Entry = Key(key: string) | Record(item: Item)

  const NoGetMessage: string := "'str' object has no attribute 'get'"

  /** Iterating the dictionary `check_username` returns yields its two keys, in insertion order. */
  const BatchKeys: seq<Entry> := [Key("results"), Key("suggestions")]

  /** The items of a list of result entries, in order. */
  function RecordsOf(entries: seq<Entry>): (items: seq<Item>)
    requires forall i :: 0 <= i < |entries| ==> entries[i].Record?
    ensures |items| == |entries|
  {
    seq(|entries|, i requires 0 <= i < |entries| && entries[i].Record? => entries[i].item)
  }

  /**
   * `print_results` as written over whatever it iterates: a key string has no
   * `.get`, which raises; a list of result entries prints its table.
   */
  method PrintResultsAsWritten(entries: seq<Entry>) returns (out: Result<seq<string>, string>)
    ensures out.Failure? <==> exists i :: 0 <= i < |entries| && entries[i].Key?
    ensures out.Failure? ==> out.error == NoGetMessage
    ensures out.Success? ==> (forall i :: 0 <= i < |entries| ==> entries[i].Record?) && out.value == Table(RecordsOf(entries))
  {
    var items: seq<Item> := [];
    for i := 0 to |entries|
      invariant forall k :: 0 <= k < i ==> entries[k].Record?
      invariant |items| == i && forall k :: 0 <= k < i ==> items[k] == entries[k].item
    {
      if entries[i].Key? {
        return Failure(NoGetMessage);
      }
      items := items + [entries[i].item];
    }
    assert items == RecordsOf(entries);
    var lines := PrintResults(items);
    return Success(lines);
  }

  /** `run_once` as written: the whole dictionary is handed to `print_results`, which fails on every check. */
  method RunOnceAsWritten(username: string, respond: Request -> Outcome) returns (out: Result<seq<string>, string>)
    ensures out == Failure(NoGetMessage)
  {
    var batch := Checker.CheckUsername(username, respond);
    assert BatchKeys[0].Key?;
    out := PrintResultsAsWritten(BatchKeys);
  }

  /** The results `check_username` gathers, one per platform of the table in table order. */
  function Results(username: string, respond: Request -> Outcome): (results: seq<Checker.CheckResult>)
    ensures |results| == |Platforms.Registry|
  {
    seq(|Platforms.Registry|, i requires 0 <= i < |Platforms.Registry| =>
      Checker.CheckPlatform(Platforms.Registry[i], username, respond))
  }

  /**
   * `run_once` as intended: the table of the "results" list. With `TableFacts`
   * it has one line per platform of the table plus two, all of one visible width.
   */
  method RunOnce(username: string, respond: Request -> Outcome) returns (lines: seq<string>)
    ensures lines == Table(ItemsOf(Results(username, respond)))
  {
    var batch := Checker.CheckUsername(username, respond);
    assert batch.results == Results(username, respond);
    lines := PrintResults(ItemsOf(batch.results));
  }

  /** The table of any list of checker results: one line per result plus two, aligned, each led by its platform. */
  lemma ResultsTable(results: seq<Checker.CheckResult>)
    ensures var t := Table(ItemsOf(results));
      && |t| == |results| + 2
      && (forall i :: 0 <= i < |t| ==> VisibleLen(t[i]) == VisibleLen(t[0]))
      && (forall i :: 0 <= i < |results| ==>
            |results[i].platform| <= |t[i + 2]| && t[i + 2][..|results[i].platform|] == results[i].platform)
  {
    var items := ItemsOf(results);
    TableFacts(items);
    forall i | 0 <= i < |results|
      ensures items[i].platform.GetOr("-") == results[i].platform
    {
    }
  }

  /**
   * The intended `run_once` prints one line per platform of the table plus the
   * header and dash rows, all of one visible width, each platform's line
   * starting with its name, in table order.
   */
  lemma RunOnceTable(username: string, respond: Request -> Outcome)
    ensures var t := Table(ItemsOf(Results(username, respond)));
      && |t| == |Platforms.Registry| + 2
      && (forall i :: 0 <= i < |t| ==> VisibleLen(t[i]) == VisibleLen(t[0]))
      && (forall i :: 0 <= i < |Platforms.Registry| ==>
            var name := Platforms.Registry[i].name;
            |name| <= |t[i + 2]| && t[i + 2][..|name|] == name)
  {
    var results := Results(username, respond);
    ResultsTable(results);
    assert forall i :: 0 <= i < |Platforms.Registry| ==> results[i].platform == Platforms.Registry[i].name;
  }
}
