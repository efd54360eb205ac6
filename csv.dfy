/** The backend's CSV serialiser `toCSV` (suncube-backend/src/services/csv.ts).
    Fields follow the quoting rules of section 2 of RFC 4180 (a field holding a
    comma, a double quote or a line break is enclosed in double quotes and every
    inner double quote is doubled), with two departures: records end in LF rather
    than CRLF, and the header names are written as they are, never quoted.
    A decoder that reads records and fields back is the partner of the encoder. */
module Csv {
  import opened Wrappers
  import opened Text

  /** A row value as the serialiser sees it: `null`/`undefined`, or a value whose
      `String(...)` rendering is `text`. */
  datatype Cell = Absent | Shown(text: string)

  /** A row object; a column missing from the map reads as `undefined`. */
  type Row = map<string, Cell>

  function CellAt(row: Row, col: string): Cell
  {
    if col in row then row[col] else Absent
  }

  /** The field string a cell stands for: `null` and `undefined` stand for "". */
  function Raw(c: Cell): string
  {
    match c
    case Absent => ""
    case Shown(t) => t
  }

  /** The characters that force a field into quotes. */
  predicate NeedsQuoting(s: string)
  {
    ',' in s || '"' in s || '\n' in s
  }

  /** `s.replace(/"/g, '""')`: a text without quotes is left alone, and every
      quote adds one character. */
  function EscapeQuotes(s: string): (r: string)
    ensures '"' !in s ==> r == s
    ensures |r| >= |s|
    ensures '"' in s ==> |r| > |s|
  {
    if s == [] then []
    else (if s[0] == '"' then "\"\"" else [s[0]]) + EscapeQuotes(s[1..])
  }

  /** The escaping works character by character: it distributes over concatenation,
      so each quote of the text becomes two and every other character is kept in place. */
  lemma {:induction false} EscapeQuotesAppend(a: string, b: string)
    ensures EscapeQuotes(a + b) == EscapeQuotes(a) + EscapeQuotes(b)
  {
    if a == [] {
      assert a + b == b;
    } else {
      assert (a + b)[0] == a[0] && (a + b)[1..] == a[1..] + b;
      EscapeQuotesAppend(a[1..], b);
    }
  }

  /** One field as written into a record. */
  function EncodeField(c: Cell): (r: string)
    ensures c.Absent? ==> r == ""
    ensures c.Shown? && !NeedsQuoting(c.text) ==> r == c.text
    ensures c.Shown? && NeedsQuoting(c.text) ==> |r| >= 2 && r[0] == '"' && r[|r| - 1] == '"'
    ensures c.Shown? && NeedsQuoting(c.text) ==> r[1..|r| - 1] == EscapeQuotes(c.text)
  {
    match c
    case Absent => ""
    case Shown(t) =>
      if NeedsQuoting(t) then "\"" + EscapeQuotes(t) + "\"" else t
  }

  /** The cells of a row in column order (`columns.map(col => row[col])`). */
  function RowCells(row: Row, columns: seq<string>): (r: seq<Cell>)
    ensures |r| == |columns|
    ensures forall i :: 0 <= i < |columns| ==> r[i] == CellAt(row, columns[i])
  {
    seq(|columns|, i requires 0 <= i < |columns| => CellAt(row, columns[i]))
  }

  function EncodeCells(cells: seq<Cell>): (r: seq<string>)
    ensures |r| == |cells|
    ensures forall i :: 0 <= i < |cells| ==> r[i] == EncodeField(cells[i])
  {
    seq(|cells|, i requires 0 <= i < |cells| => EncodeField(cells[i]))
  }

  /** One record line: the encoded fields joined by ','. */
  function EncodeRecord(row: Row, columns: seq<string>): string
  {
    Join(EncodeCells(RowCells(row, columns)), ',')
  }

  function Header(columns: seq<string>): string
  {
    Join(columns, ',')
  }

  /** `toCSV(data, columns)`; `data == None` is a null or undefined array.
      Whatever the input, the output starts with the header written verbatim;
      with no rows it is exactly the header and one line feed. */
  function ToCsv(data: Option<seq<Row>>, columns: seq<string>): (r: string)
    ensures |Header(columns)| <= |r| && r[..|Header(columns)|] == Header(columns)
    ensures data.None? || data.value == [] ==> r == Header(columns) + "\n"
  {
    if data.None? || |data.value| == 0 then
      Header(columns) + "\n"
    else
      var rows := data.value;
      var records := seq(|rows|, i requires 0 <= i < |rows| => EncodeRecord(rows[i], columns));
      JoinHeadPrefix(Header(columns), records, '\n');
      Join([Header(columns)] + records, '\n')
  }

  lemma JoinHeadPrefix(head: string, tail: seq<string>, sep: char)
    ensures |head| <= |Join([head] + tail, sep)|
    ensures Join([head] + tail, sep)[..|head|] == head
  {
    if tail != [] {
      assert ([head] + tail)[1..] == tail;
    }
  }

  // ---------------------------------------------------------------------------
  // The decoder: records split on unquoted line feeds, fields on unquoted commas,
  // a doubled quote inside quotes standing for one quote.

  /** Reads `s` in quote state `inQuotes`, with the current field, the current
      record's finished fields and the finished records accumulated so far. */
  function Scan(s: string, inQuotes: bool, field: string, rec: seq<string>, recs: seq<seq<string>>): seq<seq<string>>
    decreases |s|
  {
    if s == [] then recs + [rec + [field]]
    else if inQuotes then
      if s[0] == '"' then
        if |s| > 1 && s[1] == '"' then Scan(s[2..], true, field + ['"'], rec, recs)
        else Scan(s[1..], false, field, rec, recs)
      else Scan(s[1..], true, field + [s[0]], rec, recs)
    else if s[0] == '"' then Scan(s[1..], true, field, rec, recs)
    else if s[0] == ',' then Scan(s[1..], false, "", rec + [field], recs)
    else if s[0] == '\n' then Scan(s[1..], false, "", [], recs + [rec + [field]])
    else Scan(s[1..], false, field + [s[0]], rec, recs)
  }

  /** The records of a CSV text, each a list of field strings. */
  function Decode(s: string): seq<seq<string>>
  {
    Scan(s, false, "", [], [])
  }

  /** Outside quotes, a run with no special character is copied into the field. */
  lemma {:induction false} ScanPlain(s: string, rest: string, field: string, rec: seq<string>, recs: seq<seq<string>>)
    requires !NeedsQuoting(s)
    ensures Scan(s + rest, false, field, rec, recs) == Scan(rest, false, field + s, rec, recs)
  {
    if s == [] {
      assert s + rest == rest && field + s == field;
    } else {
      assert (s + rest)[0] == s[0] && (s + rest)[1..] == s[1..] + rest;
      ScanPlain(s[1..], rest, field + [s[0]], rec, recs);
      assert field + [s[0]] + s[1..] == field + s;
    }
  }

  /** Inside quotes, an escaped text followed by the closing quote yields the
      original text, provided the closing quote is not itself followed by a quote. */
  lemma {:induction false} ScanQuoted(s: string, rest: string, field: string, rec: seq<string>, recs: seq<seq<string>>)
    requires rest == [] || rest[0] != '"'
    ensures Scan(EscapeQuotes(s) + "\"" + rest, true, field, rec, recs) == Scan(rest, false, field + s, rec, recs)
  {
    var input := EscapeQuotes(s) + "\"" + rest;
    if s == [] {
      assert input == "\"" + rest;
      assert input[1..] == rest;
      assert field + s == field;
    } else {
      ScanQuoted(s[1..], rest, field + [s[0]], rec, recs);
      assert field + [s[0]] + s[1..] == field + s;
      if s[0] == '"' {
        assert input == "\"\"" + (EscapeQuotes(s[1..]) + "\"" + rest);
        assert input[2..] == EscapeQuotes(s[1..]) + "\"" + rest;
      } else {
        assert input == [s[0]] + (EscapeQuotes(s[1..]) + "\"" + rest);
        assert input[1..] == EscapeQuotes(s[1..]) + "\"" + rest;
      }
    }
  }

  /** An encoded field followed by a delimiter decodes to the field's string. */
  lemma {:induction false} ScanField(c: Cell, rest: string, rec: seq<string>, recs: seq<seq<string>>)
    requires rest == [] || rest[0] == ',' || rest[0] == '\n'
    ensures Scan(EncodeField(c) + rest, false, "", rec, recs) == Scan(rest, false, Raw(c), rec, recs)
  {
    match c
    case Absent =>
      assert EncodeField(c) + rest == rest;
    case Shown(t) =>
      if NeedsQuoting(t) {
        var input := EncodeField(c) + rest;
        assert input == "\"" + (EscapeQuotes(t) + "\"" + rest);
        assert input[1..] == EscapeQuotes(t) + "\"" + rest;
        ScanQuoted(t, rest, "", rec, recs);
        assert "" + t == t;
      } else {
        ScanPlain(t, rest, "", rec, recs);
        assert "" + t == t;
      }
  }

  function Raws(cells: seq<Cell>): (r: seq<string>)
    ensures |r| == |cells|
    ensures forall i :: 0 <= i < |cells| ==> r[i] == Raw(cells[i])
  {
    seq(|cells|, i requires 0 <= i < |cells| => Raw(cells[i]))
  }

  /** Outside quotes, a comma closes the current field. */
  lemma ScanComma(rest: string, field: string, rec: seq<string>, recs: seq<seq<string>>)
    ensures Scan([','] + rest, false, field, rec, recs) == Scan(rest, false, "", rec + [field], recs)
  {
    assert ([','] + rest)[1..] == rest;
  }

  /** Outside quotes, a line feed closes the current field and record. */
  lemma ScanNewline(rest: string, field: string, rec: seq<string>, recs: seq<seq<string>>)
    ensures Scan(['\n'] + rest, false, field, rec, recs) == Scan(rest, false, "", [], recs + [rec + [field]])
  {
    assert (['\n'] + rest)[1..] == rest;
  }

  lemma JoinCons(parts: seq<string>, sep: char)
    requires |parts| >= 2
    ensures Join(parts, sep) == parts[0] + [sep] + Join(parts[1..], sep)
  {
  }

  /** A record line of two or more cells is its first field, a comma and the rest. */
  lemma LineCons(cells: seq<Cell>, rest: string)
    requires |cells| >= 2
    ensures Join(EncodeCells(cells), ',') + rest
         == EncodeField(cells[0]) + ([','] + (Join(EncodeCells(cells[1..]), ',') + rest))
  {
    var enc := EncodeCells(cells);
    assert EncodeCells(cells[1..]) == enc[1..];
    JoinCons(enc, ',');
  }

  lemma RawsInitCons(cells: seq<Cell>)
    requires |cells| >= 2
    ensures Raws(cells[..|cells| - 1]) == [Raw(cells[0])] + Raws(cells[1..][..|cells| - 2])
  {
    assert cells[1..][..|cells| - 2] == cells[1..|cells| - 1];
  }

  /** A record line followed by end of text or a line feed decodes field by field;
      the last field is still open when the delimiter is reached. */
  lemma {:induction false} ScanLine(cells: seq<Cell>, rest: string, rec: seq<string>, recs: seq<seq<string>>)
    requires |cells| >= 1
    requires rest == [] || rest[0] == '\n'
    ensures Scan(Join(EncodeCells(cells), ',') + rest, false, "", rec, recs)
         == Scan(rest, false, Raw(cells[|cells| - 1]), rec + Raws(cells[..|cells| - 1]), recs)
  {
    var n := |cells|;
    if n == 1 {
      ScanField(cells[0], rest, rec, recs);
      assert Raws(cells[..0]) == [];
      assert rec + [] == rec;
    } else {
      var tail := cells[1..];
      var tailLine := Join(EncodeCells(tail), ',');
      LineCons(cells, rest);
      ScanField(cells[0], [','] + (tailLine + rest), rec, recs);
      ScanComma(tailLine + rest, Raw(cells[0]), rec, recs);
      ScanLine(tail, rest, rec + [Raw(cells[0])], recs);
      RawsInitCons(cells);
      AppendAssoc(rec, [Raw(cells[0])], Raws(tail[..|tail| - 1]));
    }
  }

  function Lines(lines: seq<seq<Cell>>): (r: seq<string>)
    ensures |r| == |lines|
    ensures forall i :: 0 <= i < |lines| ==> r[i] == Join(EncodeCells(lines[i]), ',')
  {
    seq(|lines|, i requires 0 <= i < |lines| => Join(EncodeCells(lines[i]), ','))
  }

  function AllRaws(lines: seq<seq<Cell>>): (r: seq<seq<string>>)
    ensures |r| == |lines|
    ensures forall i :: 0 <= i < |lines| ==> r[i] == Raws(lines[i])
  {
    seq(|lines|, i requires 0 <= i < |lines| => Raws(lines[i]))
  }

  lemma LinesCons(lines: seq<seq<Cell>>)
    requires |lines| >= 2
    ensures Join(Lines(lines), '\n') == Join(EncodeCells(lines[0]), ',') + (['\n'] + Join(Lines(lines[1..]), '\n'))
  {
    assert Lines(lines[1..]) == Lines(lines)[1..];
    JoinCons(Lines(lines), '\n');
  }

  lemma AppendAssoc<T>(a: seq<T>, b: seq<T>, c: seq<T>)
    ensures a + b + c == a + (b + c)
  {
  }

  lemma RawsSnoc(cells: seq<Cell>)
    requires |cells| >= 1
    ensures Raws(cells[..|cells| - 1]) + [Raw(cells[|cells| - 1])] == Raws(cells)
  {
  }

  /** A record line followed by a line feed decodes to one finished record. */
  lemma ScanRecordLine(first: seq<Cell>, tailText: string, recs: seq<seq<string>>)
    requires |first| >= 1
    ensures Scan(Join(EncodeCells(first), ',') + (['\n'] + tailText), false, "", [], recs)
         == Scan(tailText, false, "", [], recs + [Raws(first)])
  {
    var n := |first|;
    ScanLine(first, ['\n'] + tailText, [], recs);
    ScanNewline(tailText, Raw(first[n - 1]), [] + Raws(first[..n - 1]), recs);
    RawsSnoc(first);
    assert [] + Raws(first[..n - 1]) == Raws(first[..n - 1]);
  }

  lemma AllRawsCons(lines: seq<seq<Cell>>)
    requires |lines| >= 1
    ensures AllRaws(lines) == [Raws(lines[0])] + AllRaws(lines[1..])
  {
  }

  /** A single record line decodes to that one record. */
  lemma ScanLastLine(line: seq<Cell>, recs: seq<seq<string>>)
    requires |line| >= 1
    ensures Scan(Join(Lines([line]), '\n'), false, "", [], recs) == recs + AllRaws([line])
  {
    var n := |line|;
    ScanLine(line, [], [], recs);
    RawsSnoc(line);
    assert [] + Raws(line[..n - 1]) == Raws(line[..n - 1]);
    assert Lines([line]) == [Join(EncodeCells(line), ',')];
    assert Join(EncodeCells(line), ',') + [] == Join(EncodeCells(line), ',');
    assert AllRaws([line]) == [Raws(line)];
  }

  lemma NonEmptyTail(lines: seq<seq<Cell>>)
    requires |lines| >= 1
    requires forall i :: 0 <= i < |lines| ==> |lines[i]| >= 1
    ensures forall i :: 0 <= i < |lines[1..]| ==> |lines[1..][i]| >= 1
  {
    forall i | 0 <= i < |lines[1..]| ensures |lines[1..][i]| >= 1 {
      assert lines[1..][i] == lines[i + 1];
    }
  }

  /** Non-empty record lines joined by line feeds decode to their field strings. */
  lemma {:induction false} ScanLines(lines: seq<seq<Cell>>, recs: seq<seq<string>>)
    requires |lines| >= 1
    requires forall i :: 0 <= i < |lines| ==> |lines[i]| >= 1
    ensures Scan(Join(Lines(lines), '\n'), false, "", [], recs) == recs + AllRaws(lines)
  {
    if |lines| == 1 {
      assert lines == [lines[0]];
      ScanLastLine(lines[0], recs);
    } else {
      var tail := lines[1..];
      LinesCons(lines);
      ScanRecordLine(lines[0], Join(Lines(tail), '\n'), recs);
      NonEmptyTail(lines);
      ScanLines(tail, recs + [Raws(lines[0])]);
      AllRawsCons(lines);
      AppendAssoc(recs, [Raws(lines[0])], AllRaws(tail));
    }
  }

  /** The field strings of a row, in column order. */
  function FieldStrings(row: Row, columns: seq<string>): seq<string>
  {
    Raws(RowCells(row, columns))
  }

  /** The header written as a line of shown cells. */
  function HeaderCells(columns: seq<string>): (r: seq<Cell>)
    ensures |r| == |columns|
  {
    seq(|columns|, j requires 0 <= j < |columns| => Shown(columns[j]))
  }

  /** The output's lines as cells: the header, then each row's cells. */
  function OutputLines(rows: seq<Row>, columns: seq<string>): (r: seq<seq<Cell>>)
    ensures |r| == |rows| + 1
  {
    [HeaderCells(columns)] + seq(|rows|, i requires 0 <= i < |rows| => RowCells(rows[i], columns))
  }

  lemma ToCsvLines(rows: seq<Row>, columns: seq<string>)
    requires |rows| >= 1
    requires forall j :: 0 <= j < |columns| ==> !NeedsQuoting(columns[j])
    ensures ToCsv(Some(rows), columns) == Join(Lines(OutputLines(rows, columns)), '\n')
  {
    assert EncodeCells(HeaderCells(columns)) == columns;
    var records := seq(|rows|, i requires 0 <= i < |rows| => EncodeRecord(rows[i], columns));
    assert Lines(OutputLines(rows, columns)) == [Header(columns)] + records;
  }

  lemma AllRawsOutput(rows: seq<Row>, columns: seq<string>)
    ensures AllRaws(OutputLines(rows, columns))
         == [columns] + seq(|rows|, i requires 0 <= i < |rows| => FieldStrings(rows[i], columns))
  {
    assert Raws(HeaderCells(columns)) == columns;
  }

  /** Round trip: for at least one column, column names free of ',', '"' and '\n'
      (the header is never escaped), and at least one row, decoding the output
      gives the header's column names followed by one record per row, in order,
      holding that row's field strings in column order. */
  lemma {:induction false} DecodeToCsv(rows: seq<Row>, columns: seq<string>)
    requires |rows| >= 1 && |columns| >= 1
    requires forall j :: 0 <= j < |columns| ==> !NeedsQuoting(columns[j])
    ensures Decode(ToCsv(Some(rows), columns))
         == [columns] + seq(|rows|, i requires 0 <= i < |rows| => FieldStrings(rows[i], columns))
  {
    var lines := OutputLines(rows, columns);
    ToCsvLines(rows, columns);
    assert forall i :: 0 <= i < |lines| ==> |lines[i]| >= 1;
    ScanLines(lines, []);
    AllRawsOutput(rows, columns);
    assert [] + AllRaws(lines) == AllRaws(lines);
  }

  /** A header name holding a comma is written unescaped, so it reads back as two columns. */
  lemma HeaderNotEscaped()
    ensures ToCsv(None, ["a,b"]) == "a,b\n"
    ensures Decode(ToCsv(None, ["a,b"]))[0] == ["a", "b"]
  {
    assert Header(["a,b"]) == "a,b";
    assert "a,b\n" == "a" + ([','] + ("b" + ['\n'] + ""));
    ScanPlain("a", [','] + ("b" + ['\n'] + ""), "", [], []);
    assert "" + "a" == "a";
    ScanComma("b" + ['\n'] + "", "a", [], []);
    ScanPlain("b", ['\n'] + "", "", ["a"], []);
    assert [] + ["a"] == ["a"] && "" + "b" == "b";
    ScanNewline("", "b", ["a"], []);
    assert ["a"] + ["b"] == ["a", "b"];
  }

  /** With a single column, a row whose value is null or undefined writes the same
      text as an empty array: the output alone cannot tell zero rows from one. */
  lemma EmptyAndBlankRowCollide(col: string)
    ensures ToCsv(Some([map[]]), [col]) == ToCsv(Some([]), [col])
  {
    var rows: seq<Row> := [map[]];
    var records := seq(|rows|, i requires 0 <= i < |rows| => EncodeRecord(rows[i], [col]));
    assert EncodeCells(RowCells(map[], [col])) == [""];
    assert EncodeRecord(map[], [col]) == "";
    assert records == [""];
    assert Header([col]) == col;
    assert [Header([col])] + records == [col, ""];
    assert Join([col, ""], '\n') == col + "\n";
    assert ToCsv(Some(rows), [col]) == Join([Header([col])] + records, '\n');
  }
}
