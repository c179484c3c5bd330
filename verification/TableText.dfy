/** Tables as tab-separated text: the exporter's quoting and the clipboard's parser. */
module TableText {
  import opened Platforms

  type Table = seq<seq<string>>

  const MAX_TEXT: nat := 8_000_000
  const MAX_ROWS: nat := 100_000
  const MAX_CELLS: nat := 10_000

  // ----- writing

  predicate NeedsQuotes(delimiter: char, cell: string) {
    delimiter in cell || '"' in cell || '\r' in cell || '\n' in cell
  }

  function Doubled(cell: string): string {
    if cell == "" then ""
    else (if cell[0] == '"' then "\"\"" else [cell[0]]) + Doubled(cell[1..])
  }

  function EscapeCell(delimiter: char, cell: string): string {
    if NeedsQuotes(delimiter, cell) then "\"" + (Doubled(cell) + "\"") else cell
  }

  function WriteRow(delimiter: char, row: seq<string>): string {
    if row == [] then ""
    else if |row| == 1 then EscapeCell(delimiter, row[0])
    else EscapeCell(delimiter, row[0]) + ([delimiter] + WriteRow(delimiter, row[1..]))
  }

  /** `exportBaseResults` for csv and tsv. */
  function WriteTable(delimiter: char, rows: Table): string {
    if rows == [] then ""
    else if |rows| == 1 then WriteRow(delimiter, rows[0])
    else WriteRow(delimiter, rows[0]) + ("\r\n" + WriteTable(delimiter, rows[1..]))
  }

  // ----- reading

  datatype Problem = TooLarge | InvalidQuote | UnclosedQuote | NotRectangular

  datatype Reading = Rows(rows: Table) | Rejected(problem: Problem)

  /** The parser's variables. */
  datatype Scan = Scan(rows: Table, row: seq<string>, value: string, quoted: bool, closed: bool)

  datatype Scanned = Scanned(scan: Scan) | Refused(problem: Problem)

  const FRESH := Scan([], [], "", false, false)

  function EndField(st: Scan): Scan { Scan(st.rows, st.row + [st.value], "", st.quoted, false) }

  function EndLine(st: Scan): Scan { Scan(st.rows + [st.row + [st.value]], [], "", st.quoted, false) }

  /** How many characters one turn of the loop takes. */
  function Taken(s: string, st: Scan): (n: nat)
    requires s != ""
    ensures 1 <= n <= |s|
  {
    if |s| > 1 && ((st.quoted && s[0] == '"' && s[1] == '"') || (!st.quoted && s[0] == '\r' && s[1] == '\n')) then 2 else 1
  }

  function Turn(s: string, st: Scan): Scanned
    requires s != ""
  {
    var c := s[0];
    var st' :=
      if st.quoted then
        if c == '"' && Taken(s, st) == 1 then Scanned(st.(quoted := false, closed := true))
        else Scanned(st.(value := st.value + [c]))
      else if c == '"' && st.value == "" && !st.closed then Scanned(st.(quoted := true))
      else if c == '\t' then Scanned(EndField(st))
      else if c == '\n' || c == '\r' then Scanned(EndLine(st))
      else if st.closed then Refused(InvalidQuote)
      else Scanned(st.(value := st.value + [c]));
    if st'.Scanned? && (|st'.scan.rows| > MAX_ROWS || |st'.scan.row| > MAX_CELLS) then Refused(TooLarge)
    else st'
  }

  function Feed(s: string, st: Scan): Scanned
    decreases |s|
  {
    if s == "" then Scanned(st)
    else
      var next := Turn(s, st);
      if next.Refused? then next else Feed(s[Taken(s, st)..], next.scan)
  }

  predicate EndsWithBreak(s: string) { s != "" && s[|s| - 1] in {'\r', '\n'} }

  predicate Rectangular(rows: Table) {
    forall i :: 0 <= i < |rows| ==> |rows[i]| == |rows[0]|
  }

  /** After the loop. */
  function Close(s: string, st: Scan): Reading {
    if st.quoted then Rejected(UnclosedQuote)
    else
      var last := if st.value != "" || st.row != [] || st.rows == [] || !EndsWithBreak(s) then EndLine(st) else st;
      if Rectangular(last.rows) then Rows(last.rows) else Rejected(NotRectangular)
  }

  function ReadTable(s: string): Reading {
    if |s| > MAX_TEXT then Rejected(TooLarge)
    else
      match Feed(s, FRESH)
      case Refused(problem) => Rejected(problem)
      case Scanned(st) => Close(s, st)
  }

  /** `parseBaseTableTSV`. */
  method ParseTable(source: string) returns (r: Reading)
    ensures r == ReadTable(source)
  {
    if |source| > MAX_TEXT { return Rejected(TooLarge); }
    var rows: Table, row: seq<string> := [], [];
    var value, quoted, closed := "", false, false;
    var i: nat := 0;
    while i < |source|
      invariant i <= |source|
      invariant Feed(source[i..], Scan(rows, row, value, quoted, closed)) == Feed(source, FRESH)
    {
      ghost var st, rest, here := Scan(rows, row, value, quoted, closed), source[i..], i;
      var c := source[i];
      if quoted {
        if c == '"' {
          if i + 1 < |source| && source[i + 1] == '"' {
            value := value + ['"'];
            i := i + 1;
          } else {
            quoted, closed := false, true;
          }
        } else {
          value := value + [c];
        }
      } else if c == '"' && value == "" && !closed {
        quoted := true;
      } else if c == '\t' {
        row, value, closed := row + [value], "", false;
      } else if c == '\n' || c == '\r' {
        if c == '\r' && i + 1 < |source| && source[i + 1] == '\n' { i := i + 1; }
        rows, row, value, closed := rows + [row + [value]], [], "", false;
      } else {
        if closed { return Rejected(InvalidQuote); }
        value := value + [c];
      }
      if |rows| > MAX_ROWS || |row| > MAX_CELLS { return Rejected(TooLarge); }
      i := i + 1;
      assert source[i..] == rest[Taken(rest, st)..];
      assert Turn(rest, st) == Scanned(Scan(rows, row, value, quoted, closed));
    }
    assert source[i..] == "";
    if quoted { return Rejected(UnclosedQuote); }
    if value != "" || row != [] || rows == [] || !EndsWithBreak(source) {
      rows := rows + [row + [value]];
    }
    var k: nat := 0;
    while k < |rows|
      invariant k <= |rows| && forall j :: 0 <= j < k ==> |rows[j]| == |rows[0]|
    {
      if |rows[k]| != |rows[0]| { return Rejected(NotRectangular); }
      k := k + 1;
    }
    return Rows(rows);
  }

  // ----- reading what was written

  /** The scan has not yet met more rows or cells than it admits. */
  predicate Within(st: Scan) { |st.rows| <= MAX_ROWS && |st.row| <= MAX_CELLS }

  predicate Plain(cell: string) { !NeedsQuotes('\t', cell) }

  lemma {:induction false} FeedPlain(cell: string, after: string, st: Scan)
    requires Plain(cell) && Within(st) && !st.quoted && !st.closed
    ensures Feed(cell + after, st) == Feed(after, st.(value := st.value + cell))
    decreases cell
  {
    if cell == "" {
      assert cell + after == after && st.value + cell == st.value;
    } else {
      var s := cell + after;
      assert cell[0] in cell && s[0] == cell[0] && s[1..] == cell[1..] + after;
      assert forall c :: c in cell[1..] ==> c in cell;
      var next := st.(value := st.value + [cell[0]]);
      FeedPlain(cell[1..], after, next);
      assert st.value + [cell[0]] + cell[1..] == st.value + cell;
    }
  }

  lemma {:induction false} FeedTab(rest: string, st: Scan)
    requires Within(st) && !st.quoted
    ensures Feed("\t" + rest, st) == if |st.row| + 1 > MAX_CELLS then Refused(TooLarge) else Feed(rest, EndField(st))
  {
    assert ("\t" + rest)[1..] == rest;
  }

  lemma {:induction false} FeedBreak(rest: string, st: Scan)
    requires Within(st) && !st.quoted
    ensures Feed("\r\n" + rest, st) == if |st.rows| + 1 > MAX_ROWS then Refused(TooLarge) else Feed(rest, EndLine(st))
  {
    assert ("\r\n" + rest)[2..] == rest;
  }

  lemma {:induction false} FeedInside(c: char, rest: string, st: Scan)
    requires Within(st) && st.quoted
    ensures Feed((if c == '"' then "\"\"" else [c]) + rest, st) == Feed(rest, st.(value := st.value + [c]))
  {
    if c == '"' { assert ("\"\"" + rest)[2..] == rest; } else { assert ([c] + rest)[1..] == rest; }
  }

  lemma {:induction false} FeedClosing(after: string, st: Scan)
    requires Within(st) && st.quoted && (after == "" || after[0] != '"')
    ensures Feed("\"" + after, st) == Feed(after, st.(quoted := false, closed := true))
  {
    assert ("\"" + after)[1..] == after;
  }

  lemma {:induction false} FeedQuoted(cell: string, after: string, st: Scan)
    requires Within(st) && st.quoted && (after == "" || after[0] != '"')
    ensures Feed(Doubled(cell) + ("\"" + after), st)
         == Feed(after, st.(value := st.value + cell, quoted := false, closed := true))
    decreases cell
  {
    var tail := "\"" + after;
    if cell == "" {
      FeedClosing(after, st);
      assert Doubled(cell) + tail == tail && st.value + cell == st.value;
    } else {
      Joined(if cell[0] == '"' then "\"\"" else [cell[0]], Doubled(cell[1..]), tail);
      FeedInside(cell[0], Doubled(cell[1..]) + tail, st);
      FeedQuoted(cell[1..], after, st.(value := st.value + [cell[0]]));
      Joined(st.value, [cell[0]], cell[1..]);
      assert [cell[0]] + cell[1..] == cell;
    }
  }

  /** One written cell puts its text in the field, whatever it contains. */
  lemma {:induction false} FeedCell(cell: string, after: string, st: Scan) returns (closed: bool)
    requires Within(st) && st.value == "" && !st.quoted && !st.closed
    requires after == "" || after[0] in {'\t', '\r'}
    ensures Feed(EscapeCell('\t', cell) + after, st) == Feed(after, st.(value := cell, closed := closed))
  {
    closed := NeedsQuotes('\t', cell);
    assert st.value + cell == cell;
    if closed {
      var s := EscapeCell('\t', cell) + after;
      Joined("\"", Doubled(cell) + "\"", after);
      Joined(Doubled(cell), "\"", after);
      assert s[1..] == Doubled(cell) + ("\"" + after);
      FeedQuoted(cell, after, st.(quoted := true));
      assert Turn(s, st) == Scanned(st.(quoted := true));
    } else {
      FeedPlain(cell, after, st);
    }
  }

  lemma {:induction false} RowsMove(done: Table, rows: Table)
    requires |rows| > 1
    ensures done + [rows[0]] + rows[1..][..|rows| - 2] == done + rows[..|rows| - 1]
    ensures rows[1..][|rows| - 2] == rows[|rows| - 1]
  {
  }

  /** Where the scan stands before the break after a row. */
  function AtEnd(st: Scan, row: seq<string>, closed: bool): Scan
    requires row != []
  {
    st.(row := st.row + row[..|row| - 1], value := row[|row| - 1], closed := closed)
  }

  lemma {:induction false} AtEndSplits(st: Scan, row: seq<string>, closed: bool)
    requires |row| > 1 && st.value == "" && !st.closed
    ensures AtEnd(st.(row := st.row + [row[0]]), row[1..], closed) == AtEnd(st, row, closed)
  {
    assert st.row + [row[0]] + row[1..][..|row| - 2] == st.row + row[..|row| - 1];
  }

  /** Reading the cells of a row from a point where some have been read. */
  lemma {:induction false} FeedRow(row: seq<string>, after: string, st: Scan) returns (closed: bool)
    requires row != [] && Within(st) && st.value == "" && !st.quoted && !st.closed
    requires after == "" || after[0] == '\r'
    ensures Feed(WriteRow('\t', row) + after, st) ==
            if |st.row| + |row| - 1 > MAX_CELLS then Refused(TooLarge) else Feed(after, AtEnd(st, row, closed))
    decreases row
  {
    if |row| == 1 {
      closed := FeedCell(row[0], after, st);
      assert st.row + row[..0] == st.row;
    } else {
      var rest := WriteRow('\t', row[1..]) + after;
      Joined(EscapeCell('\t', row[0]), "\t" + WriteRow('\t', row[1..]), after);
      Joined("\t", WriteRow('\t', row[1..]), after);
      closed := FeedCell(row[0], "\t" + rest, st);
      var read := st.(value := row[0], closed := closed);
      FeedTab(rest, read);
      var ended := st.(row := st.row + [row[0]]);
      assert EndField(read) == ended;
      if |ended.row| <= MAX_CELLS {
        closed := FeedRow(row[1..], after, ended);
        AtEndSplits(st, row, closed);
      }
    }
  }

  predicate TableOf(rows: Table, width: nat) {
    rows != [] && width > 0 && forall i :: 0 <= i < |rows| ==> |rows[i]| == width
  }

  function Reached(done: Table): Scan { Scan(done, [], "", false, false) }

  lemma {:induction false} LineEnds(done: Table, row: seq<string>, closed: bool)
    requires row != []
    ensures EndLine(AtEnd(Reached(done), row, closed)) == Reached(done + [row])
  {
    assert [] + row[..|row| - 1] + [row[|row| - 1]] == row;
  }

  lemma {:induction false} FeedLast(rows: Table, done: Table) returns (closed: bool)
    requires |rows| == 1 && rows[0] != [] && |done| <= MAX_ROWS
    ensures Feed(WriteTable('\t', rows), Reached(done)) ==
            if |rows[0]| - 1 > MAX_CELLS then Refused(TooLarge) else Scanned(AtEnd(Reached(done + rows[..0]), rows[0], closed))
  {
    closed := FeedRow(rows[0], "", Reached(done));
    assert WriteTable('\t', rows) + "" == WriteTable('\t', rows) && done + rows[..0] == done;
  }

  lemma {:induction false} FeedFirst(rows: Table, done: Table)
    requires |rows| > 1 && rows[0] != [] && |done| <= MAX_ROWS
    ensures Feed(WriteTable('\t', rows), Reached(done)) ==
            if |rows[0]| - 1 > MAX_CELLS || |done| + 1 > MAX_ROWS then Refused(TooLarge)
            else Feed(WriteTable('\t', rows[1..]), Reached(done + [rows[0]]))
  {
    var rest := WriteTable('\t', rows[1..]);
    var closed := FeedRow(rows[0], "\r\n" + rest, Reached(done));
    if |rows[0]| - 1 <= MAX_CELLS {
      FeedBreak(rest, AtEnd(Reached(done), rows[0], closed));
      LineEnds(done, rows[0], closed);
    }
  }

  lemma {:induction false} FeedTable(rows: Table, width: nat, done: Table) returns (closed: bool)
    requires TableOf(rows, width) && |done| <= MAX_ROWS
    ensures Feed(WriteTable('\t', rows), Reached(done)) ==
            if width - 1 > MAX_CELLS || |done| + |rows| - 1 > MAX_ROWS then Refused(TooLarge)
            else Scanned(AtEnd(Reached(done + rows[..|rows| - 1]), rows[|rows| - 1], closed))
    decreases rows
  {
    if |rows| == 1 {
      closed := FeedLast(rows, done);
    } else {
      closed := false;
      assert |rows[0]| == width;
      FeedFirst(rows, done);
      if width - 1 <= MAX_CELLS && |done| + 1 <= MAX_ROWS {
        closed := FeedTable(rows[1..], width, done + [rows[0]]);
        RowsMove(done, rows);
      }
    }
  }

  lemma {:induction false} WrittenEnd(rows: Table)
    requires TableOf(rows, 1) && |rows| > 1 && rows[|rows| - 1] == [""]
    ensures EndsWithBreak(WriteTable('\t', rows))
    decreases rows
  {
    if |rows| > 2 { WrittenEnd(rows[1..]); }
    else { assert WriteTable('\t', rows[1..]) == WriteRow('\t', [""]) == ""; }
  }

  lemma {:induction false} ClosesWhole(text: string, rows: Table, width: nat, closed: bool)
    requires TableOf(rows, width)
    requires width == 1 && |rows| > 1 && rows[|rows| - 1] == [""] ==> EndsWithBreak(text)
    ensures Close(text, AtEnd(Reached(rows[..|rows| - 1]), rows[|rows| - 1], closed)) ==
            if width == 1 && |rows| > 1 && rows[|rows| - 1] == [""] && EndsWithBreak(text)
            then Rows(rows[..|rows| - 1]) else Rows(rows)
  {
    var last := rows[|rows| - 1];
    LineEnds(rows[..|rows| - 1], last, closed);
    assert rows[..|rows| - 1] + [last] == rows;
  }

  /** The table is given back, without its last row when that is an empty cell
      below others, and refused only for its size. */
  lemma {:induction false} WrittenReads(rows: Table, width: nat)
    requires TableOf(rows, width)
    ensures ReadTable(WriteTable('\t', rows)) ==
            if |WriteTable('\t', rows)| > MAX_TEXT || width - 1 > MAX_CELLS || |rows| - 1 > MAX_ROWS
            then Rejected(TooLarge)
            else if width == 1 && |rows| > 1 && rows[|rows| - 1] == [""] then Rows(rows[..|rows| - 1])
            else Rows(rows)
  {
    var text := WriteTable('\t', rows);
    var closed := FeedTable(rows, width, []);
    assert [] + rows[..|rows| - 1] == rows[..|rows| - 1];
    if width == 1 && |rows| > 1 && rows[|rows| - 1] == [""] { WrittenEnd(rows); }
    ClosesWhole(text, rows, width, closed);
  }

  /** Within the limits, exactly those tables come back as they were. */
  lemma {:induction false} RoundTripExactly(rows: Table, width: nat)
    requires TableOf(rows, width) && |WriteTable('\t', rows)| <= MAX_TEXT
    requires width <= MAX_CELLS + 1 && |rows| <= MAX_ROWS + 1
    ensures ReadTable(WriteTable('\t', rows)) == Rows(rows)
       <==> !(width == 1 && |rows| > 1 && rows[|rows| - 1] == [""])
  {
    WrittenReads(rows, width);
    assert rows[..|rows| - 1] != rows;
  }
}
