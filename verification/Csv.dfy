/** The CSV writer, and a reader for quoted fields and newline-separated rows. */
module Csv {
  predicate NeedsQuotes(s: string) {
    '"' in s || ',' in s || '\n' in s
  }

  /** Every quote doubled. */
  function Doubled(s: string): string {
    if s == "" then "" else (if s[0] == '"' then "\"\"" else [s[0]]) + Doubled(s[1..])
  }

  function Escape(s: string): string {
    if NeedsQuotes(s) then "\"" + Doubled(s) + "\"" else s
  }

  function WriteRow(row: seq<string>): string
    decreases |row|
  {
    if row == [] then "" else if |row| == 1 then Escape(row[0]) else Escape(row[0]) + "," + WriteRow(row[1..])
  }

  function WriteRows(rows: seq<seq<string>>): string
    decreases |rows|
  {
    if rows == [] then "" else if |rows| == 1 then WriteRow(rows[0]) else WriteRow(rows[0]) + "\n" + WriteRows(rows[1..])
  }

  /** The header row and the others. */
  function ToCsv(headers: seq<string>, rows: seq<seq<string>>): string {
    WriteRows([headers] + rows)
  }

  // ---------------------------------------------------------------------------
  // The reader
  // ---------------------------------------------------------------------------

  /** Where in a field the reader is. */
  datatype Where = AtStart | Bare | Quoted | AfterQuote

  /** Read on, having `field` of the current field, `row` before it, and `rows` before that. */
  function Parse(s: string, at: Where, field: string, row: seq<string>, rows: seq<seq<string>>): seq<seq<string>>
    decreases |s|
  {
    if s == "" then rows + [row + [field]]
    else
      var c, rest := s[0], s[1..];
      if at.Quoted? then
        if c == '"' then Parse(rest, AfterQuote, field, row, rows) else Parse(rest, Quoted, field + [c], row, rows)
      else if at.AfterQuote? && c == '"' then Parse(rest, Quoted, field + [c], row, rows)
      else if c == ',' then Parse(rest, AtStart, "", row + [field], rows)
      else if c == '\n' then Parse(rest, AtStart, "", [], rows + [row + [field]])
      else if at.AtStart? && c == '"' then Parse(rest, Quoted, field, row, rows)
      else Parse(rest, Bare, field + [c], row, rows)
  }

  function Read(s: string): seq<seq<string>> {
    Parse(s, AtStart, "", [], [])
  }

  /** What follows a field: nothing, a comma or a line end. */
  predicate Delimited(rest: string) {
    rest == "" || rest[0] == ',' || rest[0] == '\n'
  }

  lemma {:induction false} ParseBare(f: string, rest: string, at: Where, field: string, row: seq<string>, rows: seq<seq<string>>)
    requires !NeedsQuotes(f) && (at.AtStart? || at.Bare?) && Delimited(rest)
    ensures Parse(f + rest, at, field, row, rows) == Parse(rest, Bare, field + f, row, rows)
    decreases |f|
  {
    if f == "" {
      assert f + rest == rest && field + f == field;
    } else {
      assert (f + rest)[0] == f[0] && (f + rest)[1..] == f[1..] + rest;
      assert field + [f[0]] + f[1..] == field + f;
      ParseBare(f[1..], rest, Bare, field + [f[0]], row, rows);
    }
  }

  lemma QuotedChar(c: char, rest: string, field: string, row: seq<string>, rows: seq<seq<string>>)
    requires c != '"'
    ensures Parse([c] + rest, Quoted, field, row, rows) == Parse(rest, Quoted, field + [c], row, rows)
  {
    assert ([c] + rest)[1..] == rest;
  }

  lemma ClosingQuote(rest: string, field: string, row: seq<string>, rows: seq<seq<string>>)
    ensures Parse("\"" + rest, Quoted, field, row, rows) == Parse(rest, AfterQuote, field, row, rows)
  {
    assert ("\"" + rest)[1..] == rest;
  }

  lemma QuotedPair(rest: string, field: string, row: seq<string>, rows: seq<seq<string>>)
    ensures Parse("\"\"" + rest, Quoted, field, row, rows) == Parse(rest, Quoted, field + "\"", row, rows)
  {
    assert "\"\"" + rest == "\"" + ("\"" + rest);
    ClosingQuote("\"" + rest, field, row, rows);
    assert ("\"" + rest)[1..] == rest;
  }

  lemma Comma(rest: string, field: string, row: seq<string>, rows: seq<seq<string>>)
    ensures Parse("," + rest, Bare, field, row, rows) == Parse(rest, AtStart, "", row + [field], rows)
  {
    assert ("," + rest)[1..] == rest;
  }

  lemma {:induction false} ParseQuoted(f: string, rest: string, field: string, row: seq<string>, rows: seq<seq<string>>)
    ensures Parse(Doubled(f) + "\"" + rest, Quoted, field, row, rows) == Parse(rest, AfterQuote, field + f, row, rows)
    decreases |f|
  {
    if f == "" {
      assert Doubled(f) + "\"" + rest == "\"" + rest && field + f == field;
      ClosingQuote(rest, field, row, rows);
    } else {
      var tail := Doubled(f[1..]) + "\"" + rest;
      assert field + [f[0]] + f[1..] == field + f;
      ParseQuoted(f[1..], rest, field + [f[0]], row, rows);
      if f[0] == '"' {
        assert Doubled(f) + "\"" + rest == "\"\"" + tail;
        QuotedPair(tail, field, row, rows);
      } else {
        assert Doubled(f) + "\"" + rest == [f[0]] + tail;
        QuotedChar(f[0], tail, field, row, rows);
      }
    }
  }

  /** However a field was written, the reader is left with the field itself. */
  lemma ParseEscaped(f: string, rest: string, row: seq<string>, rows: seq<seq<string>>)
    requires Delimited(rest)
    ensures Parse(Escape(f) + rest, AtStart, "", row, rows) == Parse(rest, Bare, f, row, rows)
  {
    assert "" + f == f;
    if NeedsQuotes(f) {
      var body := Doubled(f) + "\"" + rest;
      assert Escape(f) + rest == "\"" + body;
      assert ("\"" + body)[1..] == body;
      ParseQuoted(f, rest, "", row, rows);
      assert Parse(rest, AfterQuote, f, row, rows) == Parse(rest, Bare, f, row, rows);
    } else {
      ParseBare(f, rest, AtStart, "", row, rows);
    }
  }

  /** A row as it can be told apart on paper: no fields look like one empty field. */
  function AsRead(row: seq<string>): seq<string> {
    if row == [] then [""] else row
  }

  /** One field of several, and the comma after it. */
  lemma ParseField(fields: seq<string>, rest: string, row: seq<string>, rows: seq<seq<string>>)
    requires |fields| > 1
    ensures Parse(WriteRow(fields) + rest, AtStart, "", row, rows)
            == Parse(WriteRow(fields[1..]) + rest, AtStart, "", row + [fields[0]], rows)
  {
    var tail := WriteRow(fields[1..]) + rest;
    assert WriteRow(fields) + rest == Escape(fields[0]) + ("," + tail);
    ParseEscaped(fields[0], "," + tail, row, rows);
    Comma(tail, fields[0], row, rows);
  }

  /** The last field of a row, and the line end after it. */
  lemma RowEnds(f: string, rest: string, row: seq<string>, rows: seq<seq<string>>)
    requires rest == "" || rest[0] == '\n'
    ensures Parse(Escape(f) + rest, AtStart, "", row, rows)
            == if rest == "" then rows + [row + [f]] else Parse(rest[1..], AtStart, "", [], rows + [row + [f]])
  {
    ParseEscaped(f, rest, row, rows);
  }

  lemma {:induction false} ParseRow(fields: seq<string>, rest: string, row: seq<string>, rows: seq<seq<string>>)
    requires rest == "" || rest[0] == '\n'
    ensures Parse(WriteRow(fields) + rest, AtStart, "", row, rows)
            == if rest == "" then rows + [row + AsRead(fields)]
               else Parse(rest[1..], AtStart, "", [], rows + [row + AsRead(fields)])
    decreases |fields|
  {
    if fields == [] {
      RowEnds("", rest, row, rows);
    } else if |fields| == 1 {
      RowEnds(fields[0], rest, row, rows);
      assert AsRead(fields) == [fields[0]];
    } else {
      ParseField(fields, rest, row, rows);
      ParseRow(fields[1..], rest, row + [fields[0]], rows);
      assert row + [fields[0]] + AsRead(fields[1..]) == row + AsRead(fields);
    }
  }

  function AllAsRead(rows: seq<seq<string>>): (r: seq<seq<string>>)
    ensures |r| == |rows|
    ensures forall i | 0 <= i < |rows| :: r[i] == AsRead(rows[i])
    decreases |rows|
  {
    if rows == [] then [] else [AsRead(rows[0])] + AllAsRead(rows[1..])
  }

  lemma Regroup(done: seq<seq<string>>, first: seq<string>, others: seq<seq<string>>)
    ensures done + [first] + others == done + ([first] + others)
  {
  }

  lemma {:induction false} ParseRows(table: seq<seq<string>>, done: seq<seq<string>>)
    requires table != []
    ensures Parse(WriteRows(table), AtStart, "", [], done) == done + AllAsRead(table)
    decreases |table|
  {
    var first := table[0];
    Regroup(done, AsRead(first), AllAsRead(table[1..]));
    assert [] + AsRead(first) == AsRead(first);
    if |table| == 1 {
      ParseRow(first, "", [], done);
      assert WriteRow(first) + "" == WriteRow(first);
      assert AllAsRead(table[1..]) == [];
    } else {
      var tail := WriteRows(table[1..]);
      assert WriteRow(first) + "\n" + tail == WriteRow(first) + ("\n" + tail);
      ParseRow(first, "\n" + tail, [], done);
      assert ("\n" + tail)[1..] == tail;
      ParseRows(table[1..], done + [AsRead(first)]);
    }
  }

  /** What any table reads back as. */
  lemma ReadsBackAs(headers: seq<string>, rows: seq<seq<string>>)
    ensures Read(ToCsv(headers, rows)) == AllAsRead([headers] + rows)
  {
    ParseRows([headers] + rows, []);
  }

  /** Main result: a table survives the trip, whatever is in its fields, exactly when each row has a field. */
  lemma RoundTripIff(headers: seq<string>, rows: seq<seq<string>>)
    ensures Read(ToCsv(headers, rows)) == [headers] + rows <==> headers != [] && forall i | 0 <= i < |rows| :: rows[i] != []
  {
    ReadsBackAs(headers, rows);
    var table := [headers] + rows;
    var back := AllAsRead(table);
    assert forall i | 0 <= i < |table| :: back[i] == table[i] <==> table[i] != [];
    assert table[0] == headers;
    assert forall i | 0 <= i < |rows| :: table[i + 1] == rows[i];
    if headers != [] && forall i | 0 <= i < |rows| :: rows[i] != [] {
      forall i | 0 <= i < |table|
        ensures table[i] != []
      {
        if i > 0 { assert table[i] == rows[i - 1]; }
      }
      assert back == table;
    }
  }
}
