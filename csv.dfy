/**
 * The export serialisers: `csvEscape`, the two `toCSV` tables (eight columns
 * in skysweep.js, seven in index.js) and `safeFilename`.
 *
 * `ReadField`, `ReadRecord` and `ReadRecords` are a reference CSV reader
 * (quoted cells, doubled quotes); the round-trip lemmas show that reading a
 * table back gives the header and every row's cells, in order.
 */
module Csv {
  import opened Common
  import opened Text

  // ---------------- Cells ----------------

  /** `/[",\n]/.test(str)`. */
  predicate NeedsQuoting(s: string) {
    '"' in s || ',' in s || '\n' in s
  }

  /** `str.replace(/"/g, '""')`. */
  function DoubleQuotes(s: string): (r: string)
    ensures |r| >= |s|
  {
    if |s| == 0 then ""
    else (if s[0] == '"' then "\"\"" else [s[0]]) + DoubleQuotes(s[1..])
  }

  /** `csvEscape`: quote and double embedded quotes exactly when the text needs it. */
  function CsvEscape(s: string): (r: string)
    ensures NeedsQuoting(s) ==> |r| >= 2 && r[0] == '"' && r[|r| - 1] == '"'
    ensures !NeedsQuoting(s) ==> r == s
  {
    if NeedsQuoting(s) then "\"" + DoubleQuotes(s) + "\"" else s
  }

  // ---------------- A reference reader ----------------

  /** Reads an unquoted cell: everything up to a comma, a newline or the end. */
  function ReadBare(t: string): (r: (string, string))
    ensures |r.1| <= |t|
  {
    if |t| == 0 || t[0] == ',' || t[0] == '\n' then ("", t)
    else
      var (f, rest) := ReadBare(t[1..]);
      ([t[0]] + f, rest)
  }

  /** Reads the inside of a quoted cell; `""` stands for one quote, a lone `"` closes it. */
  function ReadQuoted(t: string): (r: (string, string))
    ensures |r.1| <= |t|
  {
    if |t| == 0 then ("", "")
    else if t[0] == '"' then
      if |t| > 1 && t[1] == '"' then
        var (f, rest) := ReadQuoted(t[2..]);
        ("\"" + f, rest)
      else ("", t[1..])
    else
      var (f, rest) := ReadQuoted(t[1..]);
      ([t[0]] + f, rest)
  }

  /** Reads one cell from the front of `t`: the cell and the text after it. */
  function ReadField(t: string): (r: (string, string))
    ensures |r.1| <= |t|
  {
    if |t| > 0 && t[0] == '"' then ReadQuoted(t[1..]) else ReadBare(t)
  }

  /** Reads comma-separated cells up to the end of a line. */
  function ReadRecord(t: string): (r: (seq<string>, string))
    ensures |r.0| >= 1 && |r.1| <= |t|
    decreases |t|
  {
    var (f, rest) := ReadField(t);
    if |rest| > 0 && rest[0] == ',' then
      var (fs, rest2) := ReadRecord(rest[1..]);
      ([f] + fs, rest2)
    else ([f], rest)
  }

  /** Reads newline-separated records to the end of the text. */
  function ReadRecords(t: string): (r: seq<seq<string>>)
    ensures |r| >= 1
    decreases |t|
  {
    var (fs, rest) := ReadRecord(t);
    if |rest| > 0 && rest[0] == '\n' then [fs] + ReadRecords(rest[1..]) else [fs]
  }

  /** What may follow a cell: the end, a comma or a newline. */
  predicate CellBoundary(tail: string) {
    tail == "" || tail[0] == ',' || tail[0] == '\n'
  }

  lemma {:induction false} ReadBareUnquoted(s: string, tail: string)
    requires !NeedsQuoting(s) && CellBoundary(tail)
    ensures ReadBare(s + tail) == (s, tail)
    decreases |s|
  {
    if |s| > 0 {
      assert s[0] in s;
      assert (s + tail)[1..] == s[1..] + tail;
      assert !NeedsQuoting(s[1..]) by {
        forall c | c in s[1..] ensures c in s { }
      }
      ReadBareUnquoted(s[1..], tail);
      var t := s + tail;
      assert t[0] == s[0] && t[0] != ',' && t[0] != '\n';
      assert ReadBare(t) == ([t[0]] + ReadBare(t[1..]).0, ReadBare(t[1..]).1);
      assert s == [s[0]] + s[1..];
    } else {
      assert s + tail == tail;
    }
  }

  lemma {:induction false} ReadQuotedDoubled(s: string, tail: string)
    requires CellBoundary(tail)
    ensures ReadQuoted(DoubleQuotes(s) + "\"" + tail) == (s, tail)
    decreases |s|
  {
    var t := DoubleQuotes(s) + "\"" + tail;
    if |s| == 0 {
      assert t == "\"" + tail;
      assert t[1..] == tail;
    } else if s[0] == '"' {
      assert t == "\"\"" + (DoubleQuotes(s[1..]) + "\"" + tail);
      assert t[2..] == DoubleQuotes(s[1..]) + "\"" + tail;
      ReadQuotedDoubled(s[1..], tail);
      assert s == "\"" + s[1..];
    } else {
      assert t == [s[0]] + (DoubleQuotes(s[1..]) + "\"" + tail);
      assert t[1..] == DoubleQuotes(s[1..]) + "\"" + tail;
      ReadQuotedDoubled(s[1..], tail);
      assert s == [s[0]] + s[1..];
    }
  }

  /** Every cell reads back as itself, whatever it contains. */
  lemma FieldRoundTrip(s: string, tail: string)
    requires CellBoundary(tail)
    ensures ReadField(CsvEscape(s) + tail) == (s, tail)
  {
    if NeedsQuoting(s) {
      QuotedFieldRoundTrip(s, tail);
    } else {
      BareFieldRoundTrip(s, tail);
    }
  }

  lemma QuotedFieldRoundTrip(s: string, tail: string)
    requires NeedsQuoting(s) && CellBoundary(tail)
    ensures ReadField(CsvEscape(s) + tail) == (s, tail)
  {
    var inner := DoubleQuotes(s) + "\"" + tail;
    assert CsvEscape(s) + tail == "\"" + inner;
    DropFirst('"', inner);
    ReadQuotedDoubled(s, tail);
    ReadFieldQuoted("\"" + inner);
  }

  lemma BareFieldRoundTrip(s: string, tail: string)
    requires !NeedsQuoting(s) && CellBoundary(tail)
    ensures ReadField(CsvEscape(s) + tail) == (s, tail)
  {
    ReadBareUnquoted(s, tail);
    if |s| > 0 {
      assert s[0] in s;
      assert (s + tail)[0] == s[0];
    } else {
      assert s + tail == tail;
    }
    ReadFieldBare(s + tail);
  }

  lemma ReadFieldQuoted(t: string)
    requires |t| > 0 && t[0] == '"'
    ensures ReadField(t) == ReadQuoted(t[1..])
  {
  }

  lemma ReadFieldBare(t: string)
    requires |t| == 0 || t[0] != '"'
    ensures ReadField(t) == ReadBare(t)
  {
  }

  /** The cells of one line, each escaped, joined by commas. */
  function EncodeRecord(cells: seq<string>): string {
    Join(seq(|cells|, i requires 0 <= i < |cells| => CsvEscape(cells[i])), ",")
  }

  lemma {:induction false} RecordRoundTrip(cells: seq<string>, tail: string)
    requires |cells| >= 1
    requires tail == "" || tail[0] == '\n'
    ensures ReadRecord(EncodeRecord(cells) + tail) == (cells, tail)
    decreases |cells|
  {
    if |cells| == 1 {
      RecordOne(cells, tail);
    } else {
      RecordRoundTrip(cells[1..], tail);
      RecordCons(cells, tail);
    }
  }

  lemma RecordOne(cells: seq<string>, tail: string)
    requires |cells| == 1
    requires tail == "" || tail[0] == '\n'
    ensures ReadRecord(EncodeRecord(cells) + tail) == (cells, tail)
  {
    var t := EncodeRecord(cells) + tail;
    assert ReadField(t) == (cells[0], tail) by {
      EncodeRecordOne(cells);
      FieldRoundTrip(cells[0], tail);
    }
    ReadRecordLast(t);
    assert cells == [cells[0]];
  }

  /** One more cell in front: read it, then the comma, then the rest of the record. */
  lemma RecordCons(cells: seq<string>, tail: string)
    requires |cells| >= 2
    requires ReadRecord(EncodeRecord(cells[1..]) + tail) == (cells[1..], tail)
    ensures ReadRecord(EncodeRecord(cells) + tail) == (cells, tail)
  {
    var more := cells[1..];
    var rest := "," + (EncodeRecord(more) + tail);
    EncodeRecordCons(cells, tail);
    FieldRoundTrip(cells[0], rest);
    DropFirst(',', EncodeRecord(more) + tail);
    ReadRecordComma(EncodeRecord(cells) + tail, cells[0], rest, more, tail);
    assert cells == [cells[0]] + more;
  }

  lemma DropFirst(c: char, s: string)
    ensures ([c] + s)[1..] == s
  {
  }

  /** A cell, a comma and a record read as one record. */
  lemma ReadRecordComma(t: string, f: string, rest: string, fs: seq<string>, tail: string)
    requires ReadField(t) == (f, rest) && |rest| > 0 && rest[0] == ','
    requires ReadRecord(rest[1..]) == (fs, tail)
    ensures ReadRecord(t) == ([f] + fs, tail)
  {
  }

  /** A cell followed by anything but a comma ends the record. */
  lemma ReadRecordLast(t: string)
    requires var rest := ReadField(t).1; !(|rest| > 0 && rest[0] == ',')
    ensures ReadRecord(t) == ([ReadField(t).0], ReadField(t).1)
  {
  }

  lemma EncodeRecordOne(cells: seq<string>)
    requires |cells| == 1
    ensures EncodeRecord(cells) == CsvEscape(cells[0])
  {
    assert seq(|cells|, i requires 0 <= i < |cells| => CsvEscape(cells[i])) == [CsvEscape(cells[0])];
  }

  lemma EncodeRecordCons(cells: seq<string>, tail: string)
    requires |cells| >= 2
    ensures EncodeRecord(cells) + tail == CsvEscape(cells[0]) + ("," + (EncodeRecord(cells[1..]) + tail))
  {
    var escaped := seq(|cells|, i requires 0 <= i < |cells| => CsvEscape(cells[i]));
    var more := cells[1..];
    assert escaped[1..] == seq(|more|, i requires 0 <= i < |more| => CsvEscape(more[i]));
  }

  /** Records, one per line, joined by newlines. */
  function EncodeRecords(records: seq<seq<string>>): string {
    Join(seq(|records|, i requires 0 <= i < |records| => EncodeRecord(records[i])), "\n")
  }

  /** Reading an encoded table gives back every record, in order. */
  lemma {:induction false} RecordsRoundTrip(records: seq<seq<string>>)
    requires |records| >= 1
    requires forall i :: 0 <= i < |records| ==> |records[i]| >= 1
    ensures ReadRecords(EncodeRecords(records)) == records
    decreases |records|
  {
    if |records| == 1 {
      EncodeRecordsOne(records);
      RecordRoundTrip(records[0], "");
      assert EncodeRecords(records) == EncodeRecord(records[0]) + "";
      ReadRecordsLast(EncodeRecords(records));
    } else {
      var more := records[1..];
      var rest := "\n" + EncodeRecords(more);
      RecordsRoundTrip(more);
      EncodeRecordsCons(records);
      RecordRoundTrip(records[0], rest);
      DropFirst('\n', EncodeRecords(more));
      ReadRecordsNewline(EncodeRecords(records), records[0], rest, more);
      assert records == [records[0]] + more;
    }
  }

  /** A record, a newline and more records read as one table. */
  lemma ReadRecordsNewline(t: string, fs: seq<string>, rest: string, more: seq<seq<string>>)
    requires ReadRecord(t) == (fs, rest) && |rest| > 0 && rest[0] == '\n'
    requires ReadRecords(rest[1..]) == more
    ensures ReadRecords(t) == [fs] + more
  {
  }

  /** A record followed by the end of the text is the whole table. */
  lemma ReadRecordsLast(t: string)
    requires ReadRecord(t).1 == ""
    ensures ReadRecords(t) == [ReadRecord(t).0]
  {
  }

  lemma EncodeRecordsOne(records: seq<seq<string>>)
    requires |records| == 1
    ensures EncodeRecords(records) == EncodeRecord(records[0])
  {
    assert seq(|records|, i requires 0 <= i < |records| => EncodeRecord(records[i])) == [EncodeRecord(records[0])];
  }

  lemma EncodeRecordsCons(records: seq<seq<string>>)
    requires |records| >= 2
    ensures EncodeRecords(records) == EncodeRecord(records[0]) + ("\n" + EncodeRecords(records[1..]))
  {
    var lines := seq(|records|, i requires 0 <= i < |records| => EncodeRecord(records[i]));
    var more := records[1..];
    assert lines[1..] == seq(|more|, i requires 0 <= i < |more| => EncodeRecord(more[i]));
  }

  // ---------------- Export rows and tables ----------------

  /** One export row; `category` is absent in the rows index.js builds. */
  datatype ExportRow = ExportRow(
    handle: string,
    did: string,
    followers: nat,
    following: nat,
    posts: nat,
    ratio: string,
    reason: string,
    category: Option<string>)

  const Header8: seq<string> :=
    ["handle", "did", "followers", "following", "posts", "ratio", "category", "reason"]

  const Header7: seq<string> :=
    ["handle", "did", "followers", "following", "posts", "ratio", "reason"]

  /** The cells of a row in the eight-column table, before escaping. */
  function Cells8(r: ExportRow): (cells: seq<string>)
    ensures |cells| == |Header8|
  {
    [r.handle, r.did, NatToString(r.followers), NatToString(r.following), NatToString(r.posts),
     r.ratio, r.category.GetOr(""), r.reason]
  }

  function Cells7(r: ExportRow): (cells: seq<string>)
    ensures |cells| == |Header7|
  {
    [r.handle, r.did, NatToString(r.followers), NatToString(r.following), NatToString(r.posts),
     r.ratio, r.reason]
  }

  /** One line of skysweep.js's table: the numbers and the ratio are written unescaped. */
  function Line8(r: ExportRow): string {
    Join([CsvEscape(r.handle), CsvEscape(r.did), NatToString(r.followers), NatToString(r.following),
          NatToString(r.posts), r.ratio, CsvEscape(r.category.GetOr("")), CsvEscape(r.reason)], ",")
  }

  /** One line of index.js's table. */
  function Line7(r: ExportRow): string {
    Join([CsvEscape(r.handle), CsvEscape(r.did), NatToString(r.followers), NatToString(r.following),
          NatToString(r.posts), r.ratio, CsvEscape(r.reason)], ",")
  }

  /** The lines of the rows, in order. */
  function Lines8(rows: seq<ExportRow>): (r: seq<string>)
    ensures |r| == |rows|
  {
    seq(|rows|, i requires 0 <= i < |rows| => Line8(rows[i]))
  }

  function Lines7(rows: seq<ExportRow>): (r: seq<string>)
    ensures |r| == |rows|
  {
    seq(|rows|, i requires 0 <= i < |rows| => Line7(rows[i]))
  }

  lemma Lines8Snoc(rows: seq<ExportRow>, i: nat)
    requires i < |rows|
    ensures Lines8(rows[..i + 1]) == Lines8(rows[..i]) + [Line8(rows[i])]
  {
    assert rows[..i + 1][..i] == rows[..i];
  }

  lemma Lines7Snoc(rows: seq<ExportRow>, i: nat)
    requires i < |rows|
    ensures Lines7(rows[..i + 1]) == Lines7(rows[..i]) + [Line7(rows[i])]
  {
    assert rows[..i + 1][..i] == rows[..i];
  }

  /** The text skysweep.js's `toCSV` produces. */
  function CsvText8(rows: seq<ExportRow>): string {
    Join([Join(Header8, ",")] + Lines8(rows), "\n")
  }

  /** The text index.js's `toCSV` produces. */
  function CsvText7(rows: seq<ExportRow>): string {
    Join([Join(Header7, ",")] + Lines7(rows), "\n")
  }

  /** skysweep.js `toCSV`: push the header, then one line per row, then join with newlines. */
  method ToCsv(rows: seq<ExportRow>) returns (text: string)
    ensures text == CsvText8(rows)
  {
    var lines := [Join(Header8, ",")];
    for i := 0 to |rows|
      invariant lines == [Join(Header8, ",")] + Lines8(rows[..i])
    {
      Lines8Snoc(rows, i);
      lines := lines + [Line8(rows[i])];
    }
    assert rows[..|rows|] == rows;
    text := Join(lines, "\n");
  }

  /** index.js `toCSV`: the same, with seven columns and no `category`. */
  method ToCsvIndex(rows: seq<ExportRow>) returns (text: string)
    ensures text == CsvText7(rows)
  {
    var lines := [Join(Header7, ",")];
    for i := 0 to |rows|
      invariant lines == [Join(Header7, ",")] + Lines7(rows[..i])
    {
      Lines7Snoc(rows, i);
      lines := lines + [Line7(rows[i])];
    }
    assert rows[..|rows|] == rows;
    text := Join(lines, "\n");
  }

  /** A ratio cell is written unescaped, so it must never need quoting (true of `toFixed(3)` output). */
  predicate SafeRatios(rows: seq<ExportRow>) {
    forall i :: 0 <= i < |rows| ==> !NeedsQuoting(rows[i].ratio)
  }

  lemma DigitsNeedNoQuoting(s: string)
    requires forall i :: 0 <= i < |s| ==> IsDigit(s[i])
    ensures !NeedsQuoting(s)
  {
    assert forall c | c in s :: IsDigit(c);
  }

  lemma LineIsEncoded8(r: ExportRow)
    requires !NeedsQuoting(r.ratio)
    ensures Line8(r) == EncodeRecord(Cells8(r))
  {
    DigitsNeedNoQuoting(NatToString(r.followers));
    DigitsNeedNoQuoting(NatToString(r.following));
    DigitsNeedNoQuoting(NatToString(r.posts));
    var c := Cells8(r);
    assert seq(|c|, i requires 0 <= i < |c| => CsvEscape(c[i])) ==
      [CsvEscape(r.handle), CsvEscape(r.did), NatToString(r.followers), NatToString(r.following),
       NatToString(r.posts), r.ratio, CsvEscape(r.category.GetOr("")), CsvEscape(r.reason)];
  }

  lemma LineIsEncoded7(r: ExportRow)
    requires !NeedsQuoting(r.ratio)
    ensures Line7(r) == EncodeRecord(Cells7(r))
  {
    DigitsNeedNoQuoting(NatToString(r.followers));
    DigitsNeedNoQuoting(NatToString(r.following));
    DigitsNeedNoQuoting(NatToString(r.posts));
    var c := Cells7(r);
    assert seq(|c|, i requires 0 <= i < |c| => CsvEscape(c[i])) ==
      [CsvEscape(r.handle), CsvEscape(r.did), NatToString(r.followers), NatToString(r.following),
       NatToString(r.posts), r.ratio, CsvEscape(r.reason)];
  }

  lemma HeaderIsEncoded(h: seq<string>)
    requires forall i :: 0 <= i < |h| ==> !NeedsQuoting(h[i])
    ensures Join(h, ",") == EncodeRecord(h)
  {
    assert seq(|h|, i requires 0 <= i < |h| => CsvEscape(h[i])) == h;
  }

  /**
   * Reading skysweep.js's table back gives the eight-column header and then
   * exactly the cells of every row, in input order.
   */
  lemma CsvRoundTrip8(rows: seq<ExportRow>)
    requires SafeRatios(rows)
    ensures ReadRecords(CsvText8(rows)) == [Header8] + seq(|rows|, i requires 0 <= i < |rows| => Cells8(rows[i]))
  {
    TableIsEncoded8(rows);
    HeaderAndRowsRoundTrip(Header8, seq(|rows|, i requires 0 <= i < |rows| => Cells8(rows[i])));
  }

  lemma TableIsEncoded8(rows: seq<ExportRow>)
    requires SafeRatios(rows)
    ensures CsvText8(rows) == EncodeRecords([Header8] + seq(|rows|, i requires 0 <= i < |rows| => Cells8(rows[i])))
  {
    var cells := seq(|rows|, i requires 0 <= i < |rows| => Cells8(rows[i]));
    var lines := Lines8(rows);
    forall i | 0 <= i < |rows| ensures lines[i] == EncodeRecord(cells[i]) {
      LineIsEncoded8(rows[i]);
    }
    Header8IsEncoded();
    TableFromLines(Header8, cells, lines);
  }

  lemma Header8IsEncoded()
    ensures Join(Header8, ",") == EncodeRecord(Header8)
  {
    forall i | 0 <= i < |Header8| ensures !NeedsQuoting(Header8[i]) {
      LowerCaseWord(Header8[i]);
    }
    HeaderIsEncoded(Header8);
  }

  /** The same for index.js's seven-column table. */
  lemma CsvRoundTrip7(rows: seq<ExportRow>)
    requires SafeRatios(rows)
    ensures ReadRecords(CsvText7(rows)) == [Header7] + seq(|rows|, i requires 0 <= i < |rows| => Cells7(rows[i]))
  {
    TableIsEncoded7(rows);
    HeaderAndRowsRoundTrip(Header7, seq(|rows|, i requires 0 <= i < |rows| => Cells7(rows[i])));
  }

  lemma TableIsEncoded7(rows: seq<ExportRow>)
    requires SafeRatios(rows)
    ensures CsvText7(rows) == EncodeRecords([Header7] + seq(|rows|, i requires 0 <= i < |rows| => Cells7(rows[i])))
  {
    var cells := seq(|rows|, i requires 0 <= i < |rows| => Cells7(rows[i]));
    var lines := Lines7(rows);
    forall i | 0 <= i < |rows| ensures lines[i] == EncodeRecord(cells[i]) {
      LineIsEncoded7(rows[i]);
    }
    Header7IsEncoded();
    TableFromLines(Header7, cells, lines);
  }

  lemma Header7IsEncoded()
    ensures Join(Header7, ",") == EncodeRecord(Header7)
  {
    forall i | 0 <= i < |Header7| ensures !NeedsQuoting(Header7[i]) {
      LowerCaseWord(Header7[i]);
    }
    HeaderIsEncoded(Header7);
  }

  /** A table of a header and rows, none of them empty, reads back as itself. */
  lemma HeaderAndRowsRoundTrip(header: seq<string>, cells: seq<seq<string>>)
    requires |header| >= 1 && forall i :: 0 <= i < |cells| ==> |cells[i]| >= 1
    ensures ReadRecords(EncodeRecords([header] + cells)) == [header] + cells
  {
    var records := [header] + cells;
    forall i | 0 <= i < |records| ensures |records[i]| >= 1 {
      if i > 0 {
        assert records[i] == cells[i - 1];
      }
    }
    RecordsRoundTrip(records);
  }

  /** A header line and the lines of the rows, each encoding its record, make the encoded table. */
  lemma TableFromLines(header: seq<string>, cells: seq<seq<string>>, lines: seq<string>)
    requires Join(header, ",") == EncodeRecord(header)
    requires |lines| == |cells| && forall i :: 0 <= i < |cells| ==> lines[i] == EncodeRecord(cells[i])
    ensures Join([Join(header, ",")] + lines, "\n") == EncodeRecords([header] + cells)
  {
    var records := [header] + cells;
    var encoded := seq(|records|, i requires 0 <= i < |records| => EncodeRecord(records[i]));
    forall i | 0 <= i < |records| ensures ([Join(header, ",")] + lines)[i] == encoded[i] {
      if i > 0 {
        assert records[i] == cells[i - 1];
      }
    }
    assert [Join(header, ",")] + lines == encoded;
  }

  /** A word of lower-case letters needs no quoting. */
  lemma LowerCaseWord(s: string)
    requires forall i :: 0 <= i < |s| ==> 'a' <= s[i] <= 'z'
    ensures !NeedsQuoting(s)
  {
  }

  /** `csvEscape` leaves text alone exactly when it has no quote, comma or newline. */
  lemma EscapeChangesIffNeeded(s: string)
    ensures CsvEscape(s) == s <==> !NeedsQuoting(s)
  {
    if NeedsQuoting(s) {
      assert |CsvEscape(s)| >= |s| + 2;
    }
  }

  // ---------------- File names ----------------

  /** `\w`, `.` and `-`: the characters `safeFilename` keeps. */
  predicate IsSafeChar(c: char) {
    ('A' <= c <= 'Z') || ('a' <= c <= 'z') || ('0' <= c <= '9') || c == '_' || c == '.' || c == '-'
  }

  /**
   * The UTF-16 code units JavaScript stores for one character: the character
   * itself below U+10000, otherwise a high and a low surrogate.
   */
  function Utf16Units(c: char): (u: seq<int>)
    ensures |u| == if c as int < 0x1_0000 then 1 else 2
    ensures c as int < 0x1_0000 ==> u[0] == c as int
    ensures c as int >= 0x1_0000 ==> 0xD800 <= u[0] < 0xDC00 <= u[1] < 0xE000
  {
    if c as int < 0x1_0000 then [c as int]
    else
      var v := c as int - 0x1_0000;
      [0xD800 + v / 0x400, 0xDC00 + v % 0x400]
  }

  /** A JavaScript string as the code units `replace` and `slice` work on. */
  function Utf16(s: string): (u: seq<int>)
    ensures |u| >= |s|
  {
    if |s| == 0 then [] else Utf16(s[..|s| - 1]) + Utf16Units(s[|s| - 1])
  }

  /** A code unit the pattern `[^\w.\-]` (without the `u` flag) leaves alone. */
  predicate IsSafeUnit(u: int) {
    ('A' as int <= u <= 'Z' as int) || ('a' as int <= u <= 'z' as int) || ('0' as int <= u <= '9' as int)
    || u == '_' as int || u == '.' as int || u == '-' as int
  }

  /** What `replace(/[^\w.\-]/g, "_")` makes of one code unit. */
  function CleanUnit(u: int): (c: char)
    ensures IsSafeChar(c)
  {
    if IsSafeUnit(u) then u as char else '_'
  }

  /** One character cleaned: kept, or one `_` per code unit it occupies. */
  function CleanChar(c: char): string {
    if IsSafeChar(c) then [c] else if c as int < 0x1_0000 then "_" else "__"
  }

  /** The replacement applied to a whole name, character by character. */
  function CleanChars(name: string): string {
    if |name| == 0 then [] else CleanChars(name[..|name| - 1]) + CleanChar(name[|name| - 1])
  }

  /**
   * `String(name).replace(/[^\w.\-]/g, "_").slice(0, 120)`. The pattern has no
   * `u` flag, so each half of a surrogate pair is replaced on its own, and the
   * 120 counts code units.
   */
  function SafeFilename(name: string): (r: string)
    ensures var u := Utf16(name);
      && |r| == (if |u| < 120 then |u| else 120)
      && forall i :: 0 <= i < |r| ==> r[i] == CleanUnit(u[i])
    ensures forall i :: 0 <= i < |r| ==> IsSafeChar(r[i])
  {
    var w := CleanChars(name);
    CleanCharsUnits(name);
    w[..if |w| < 120 then |w| else 120]
  }

  /** Cleaning character by character is cleaning code unit by code unit. */
  lemma {:induction false} CleanCharsUnits(name: string)
    ensures |CleanChars(name)| == |Utf16(name)|
    ensures forall i :: 0 <= i < |CleanChars(name)| ==> CleanChars(name)[i] == CleanUnit(Utf16(name)[i])
  {
    if |name| > 0 {
      var front, c := name[..|name| - 1], name[|name| - 1];
      CleanCharsUnits(front);
      var w, u := CleanChars(front), Utf16(front);
      assert CleanChars(name) == w + CleanChar(c);
      assert Utf16(name) == u + Utf16Units(c);
      assert |CleanChar(c)| == |Utf16Units(c)|;
      forall j | 0 <= j < |CleanChar(c)|
        ensures CleanChar(c)[j] == CleanUnit(Utf16Units(c)[j])
      {
        if c as int < 0x1_0000 {
          assert IsSafeUnit(c as int) <==> IsSafeChar(c);
        }
      }
    }
  }

  /**
   * For names without characters beyond U+FFFF, each character is kept when it
   * is in `\w.-` and becomes `_` otherwise, and at most 120 characters remain.
   */
  lemma SafeFilenameBmp(name: string)
    requires forall i :: 0 <= i < |name| ==> name[i] as int < 0x1_0000
    ensures var r := SafeFilename(name);
      && |r| == (if |name| < 120 then |name| else 120)
      && forall i :: 0 <= i < |r| ==> r[i] == if IsSafeChar(name[i]) then name[i] else '_'
  {
    BmpUnits(name);
    forall i | 0 <= i < |name| ensures IsSafeUnit(name[i] as int) <==> IsSafeChar(name[i]) { }
  }

  /** Below U+10000 every character is one code unit, its own value. */
  lemma {:induction false} BmpUnits(name: string)
    requires forall i :: 0 <= i < |name| ==> name[i] as int < 0x1_0000
    ensures |Utf16(name)| == |name|
    ensures forall i :: 0 <= i < |name| ==> Utf16(name)[i] == name[i] as int
  {
    if |name| > 0 {
      BmpUnits(name[..|name| - 1]);
    }
  }

  /** A character beyond U+FFFF becomes two underscores, not one. */
  lemma SafeFilenameAstral()
    ensures SafeFilename("a\U{1F600}") == "a__"
  {
    var u := Utf16("a\U{1F600}");
    assert "a\U{1F600}"[..1] == "a";
    assert Utf16("a") == [97] by { assert "a"[..0] == ""; }
    assert |u| == 3 && u[0] == 97;
    var r := SafeFilename("a\U{1F600}");
    assert r[0] == 'a' && r[1] == '_' && r[2] == '_';
  }

  /** Text of safe characters is left as it is by the replacement. */
  lemma {:induction false} CleanCharsSafe(s: string)
    requires forall i :: 0 <= i < |s| ==> IsSafeChar(s[i])
    ensures CleanChars(s) == s
  {
    if |s| > 0 {
      CleanCharsSafe(s[..|s| - 1]);
      assert s == s[..|s| - 1] + [s[|s| - 1]];
    }
  }

  /** Cleaning a name twice is cleaning it once. */
  lemma SafeFilenameIdempotent(name: string)
    ensures SafeFilename(SafeFilename(name)) == SafeFilename(name)
  {
    var r := SafeFilename(name);
    CleanCharsSafe(r);
  }
}
