/**
  The CSV export of the climate-projection page: a header row made of the
  first record's keys, then one line per record with the values under those
  keys, strings in double quotes. Embedded quotes are not doubled, so this
  is a simplified form of the format of section 2 of RFC 4180.
*/
module ClimateProjections {
  import opened Optional
  import opened Text

  /** A value in a record: a string, `null`, or any other value as `String(value)` writes it. */
  datatype Value = Str(s: string) | Null | Other(text: string)

  /**
    A record: its keys in the object's own-property order (integer-like
    keys first, ascending, then the others as inserted), each with its
    value. A JavaScript object has distinct keys; `Get` takes the first entry with a key.
  */
  type Row = seq<(string, Value)>

  /** `Object.keys(row)`. */
  function Keys(row: Row): (ks: seq<string>)
    ensures |ks| == |row| && forall i :: 0 <= i < |row| ==> ks[i] == row[i].0
  {
    seq(|row|, i requires 0 <= i < |row| => row[i].0)
  }

  /** `row[key]`: the value of the first entry with that key; `None` is `undefined`. */
  function Get(row: Row, key: string): (r: Option<Value>)
    ensures r.Some? ==> exists j :: 0 <= j < |row| && row[j] == (key, r.value)
    ensures r.None? ==> key !in Keys(row)
  {
    if row == [] then None
    else if row[0].0 == key then Some(row[0].1)
    else
      var r := Get(row[1..], key);
      assert r.Some? ==> exists j :: 0 <= j < |row[1..]| && row[1..][j] == (key, r.value);
      assert Keys(row) == [row[0].0] + Keys(row[1..]);
      r
  }

  /**
    One cell: a string between double quotes, left as it is inside; any
    other value as its text; `null` and `undefined` as the empty text that
    `join` writes for them.
  */
  function Cell(v: Option<Value>): string
  {
    match v
    case None => ""
    case Some(Str(s)) => "\"" + s + "\""
    case Some(Null) => ""
    case Some(Other(t)) => t
  }

  /** The cells of one record under the given headers. */
  function Cells(row: Row, headers: seq<string>): (cs: seq<string>)
    ensures |cs| == |headers|
  {
    seq(|headers|, i requires 0 <= i < |headers| => Cell(Get(row, headers[i])))
  }

  /** The data lines, one per record. */
  function Lines(rows: seq<Row>, headers: seq<string>): (ls: seq<string>)
    ensures |ls| == |rows|
  {
    seq(|rows|, i requires 0 <= i < |rows| => Join(Cells(rows[i], headers), ","))
  }

  /**
    `convertToCSV`: nothing for a missing or empty list; otherwise the
    first record's keys joined with commas, then the lines, all joined with
    newlines. The text is empty exactly when there is nothing to export.
  */
  function ConvertToCsv(data: Option<seq<Row>>): (csv: string)
    ensures csv == "" <==> data == None || data == Some([])
  {
    match data
    case None => ""
    case Some(rows) =>
      if rows == [] then ""
      else
        var headers := Keys(rows[0]);
        var parts := [Join(headers, ",")] + Lines(rows, headers);
        JoinedHasSeparator(parts, "\n");
        Join(parts, "\n")
  }

  /** Two or more parts joined with a non-empty separator are not empty. */
  lemma {:induction false} JoinedHasSeparator(parts: seq<string>, sep: string)
    requires |parts| >= 2 && sep != ""
    ensures Join(parts, sep) != ""
  {
  }

  /** The character occurs in no key and no value text of the records. */
  predicate Avoids(rows: seq<Row>, c: char)
  {
    forall i, j :: 0 <= i < |rows| && 0 <= j < |rows[i]| ==>
      c !in rows[i][j].0 && c !in ValueText(rows[i][j].1)
  }

  /** The characters a value contributes to a cell. */
  function ValueText(v: Value): string
  {
    match v
    case Str(s) => s
    case Null => ""
    case Other(t) => t
  }

  /** A cell holds a character other than the quote only when its value does. */
  lemma CellAvoids(row: Row, key: string, c: char)
    requires c != '"'
    requires forall j :: 0 <= j < |row| ==> c !in ValueText(row[j].1)
    ensures c !in Cell(Get(row, key))
  {
    var v := Get(row, key);
    if v.Some? {
      var j :| 0 <= j < |row| && row[j] == (key, v.value);
      assert c !in ValueText(row[j].1);
    }
  }

  /** Every cell of a record holds a character other than the quote only when a value does. */
  lemma CellsAvoid(row: Row, headers: seq<string>, c: char)
    requires c != '"'
    requires forall j :: 0 <= j < |row| ==> c !in ValueText(row[j].1)
    ensures forall k :: 0 <= k < |headers| ==> c !in Cells(row, headers)[k]
  {
    forall k | 0 <= k < |headers|
      ensures c !in Cells(row, headers)[k]
    {
      CellAvoids(row, headers[k], c);
    }
  }

  /** The header line splits back into the keys and has no newline. */
  lemma HeaderLine(headers: seq<string>)
    requires |headers| >= 1
    requires forall k :: 0 <= k < |headers| ==> ',' !in headers[k] && '\n' !in headers[k]
    ensures '\n' !in Join(headers, ",")
    ensures Split(Join(headers, ","), ',') == headers
  {
    JoinWithoutChar(headers, ",", '\n');
    SplitJoinRoundTrip(headers, ',');
  }

  /** A data line splits back into its cells and has no newline. */
  lemma DataLine(row: Row, headers: seq<string>)
    requires |headers| >= 1
    requires forall j :: 0 <= j < |row| ==> ',' !in ValueText(row[j].1) && '\n' !in ValueText(row[j].1)
    ensures '\n' !in Join(Cells(row, headers), ",")
    ensures Split(Join(Cells(row, headers), ","), ',') == Cells(row, headers)
  {
    CellsAvoid(row, headers, '\n');
    CellsAvoid(row, headers, ',');
    JoinWithoutChar(Cells(row, headers), ",", '\n');
    SplitJoinRoundTrip(Cells(row, headers), ',');
  }

  /** The lines of the export, header first. */
  function ExportLines(rows: seq<Row>): (parts: seq<string>)
    requires |rows| >= 1
    ensures |parts| == |rows| + 1
    ensures parts[0] == Join(Keys(rows[0]), ",")
    ensures forall i :: 0 <= i < |rows| ==> parts[i + 1] == Join(Cells(rows[i], Keys(rows[0])), ",")
    ensures ConvertToCsv(Some(rows)) == Join(parts, "\n")
  {
    [Join(Keys(rows[0]), ",")] + Lines(rows, Keys(rows[0]))
  }

  /** No line of the export holds a newline, and each splits back at commas. */
  lemma LinesSplit(rows: seq<Row>)
    requires |rows| >= 1 && |rows[0]| >= 1
    requires Avoids(rows, ',') && Avoids(rows, '\n')
    ensures forall k :: 0 <= k < |rows| + 1 ==> '\n' !in ExportLines(rows)[k]
    ensures Split(ExportLines(rows)[0], ',') == Keys(rows[0])
    ensures forall i :: 0 <= i < |rows| ==> Split(ExportLines(rows)[i + 1], ',') == Cells(rows[i], Keys(rows[0]))
  {
    var headers := Keys(rows[0]);
    var parts := ExportLines(rows);
    forall k | 0 <= k < |headers|
      ensures ',' !in headers[k] && '\n' !in headers[k]
    {
      assert headers[k] == rows[0][k].0;
    }
    HeaderLine(headers);
    forall i | 0 <= i < |rows|
      ensures '\n' !in parts[i + 1]
      ensures Split(parts[i + 1], ',') == Cells(rows[i], headers)
    {
      DataLine(rows[i], headers);
    }
    forall k | 0 <= k < |rows| + 1
      ensures '\n' !in parts[k]
    {
      if k > 0 {
        assert '\n' !in parts[(k - 1) + 1];
      }
    }
  }

  /**
    Read back by splitting at newlines and then at commas, the export gives
    the first record's keys and, for every record in order, one cell per key
    — provided no key or value contains a comma or a newline, and the first
    record has a key. So there are `|rows| + 1` lines and every line has as
    many fields as the header.
  */
  lemma SplitRoundTrip(rows: seq<Row>)
    requires |rows| >= 1 && |rows[0]| >= 1
    requires Avoids(rows, ',') && Avoids(rows, '\n')
    ensures var lines := Split(ConvertToCsv(Some(rows)), '\n');
      && |lines| == |rows| + 1
      && Split(lines[0], ',') == Keys(rows[0])
      && forall i :: 0 <= i < |rows| ==> Split(lines[i + 1], ',') == Cells(rows[i], Keys(rows[0]))
  {
    var parts := ExportLines(rows);
    LinesSplit(rows);
    SplitJoinRoundTrip(parts, '\n');
  }

  /** A cell read back: outer double quotes mark a string, the empty text a missing value. */
  function ReadCell(t: string): Option<Value>
  {
    if |t| >= 2 && t[0] == '"' && t[|t| - 1] == '"' then Some(Str(t[1..|t| - 1]))
    else if t == "" then None
    else Some(Other(t))
  }

  /**
    Reading a cell back gives its value: a string exactly (quotes inside it
    included), any other non-empty text that is not itself quoted as that
    text; `null`, `undefined` and the empty text all come back missing.
  */
  lemma CellRoundTrip(v: Option<Value>)
    ensures ReadCell(Cell(v)) ==
      match v
      case Some(Str(s)) => Some(Str(s))
      case Some(Other(t)) =>
        if t == "" then None
        else if |t| >= 2 && t[0] == '"' && t[|t| - 1] == '"' then Some(Str(t[1..|t| - 1]))
        else Some(Other(t))
      case _ => None
  {
    if v.Some? && v.value.Str? {
      var c := Cell(v);
      assert c[1..|c| - 1] == v.value.s;
    }
  }
}
