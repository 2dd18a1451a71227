/**
 * The report exporter's CSV text: an unquoted header line, then one line per
 * row whose fields are wrapped in double quotes without escaping, all joined
 * with a line feed. This departs from RFC 4180 section 2 (no doubling of
 * embedded quotes, LF instead of CRLF, unquoted header).
 */
module Csv {
  import opened Wrappers
  import opened Text

  /** A data row: the values of an export record, keyed by column key. */
  type Row = map<string, string>

  /** The key under which a header's value is looked up: lower-cased, every space an underscore. */
  function HeaderKey(h: string): (k: string)
    ensures |k| == |h|
    ensures ' ' !in k
  {
    ReplaceAll(LowerStr(h), ' ', '_')
  }

  /** The key of a header, character by character: spaces become underscores, letters are lowered. */
  lemma HeaderKeyIs(h: string, k: string)
    requires |h| == |k|
    requires forall i :: 0 <= i < |h| ==> k[i] == if h[i] == ' ' then '_' else Lower(h[i])
    ensures HeaderKey(h) == k
  {
    var l := LowerStr(h);
    forall i | 0 <= i < |h| ensures HeaderKey(h)[i] == k[i] {
      assert l[i] == Lower(h[i]);
      assert l[i] == ' ' <==> h[i] == ' ';
    }
  }

  /** `row[key] || ""`: a missing key and an empty value both give the empty field. */
  function FieldValue(row: Row, key: string): (v: string)
    ensures key !in row ==> v == ""
    ensures key in row ==> v == row[key]
  {
    if key in row then row[key] else ""
  }

  /** A field wrapped in double quotes, with embedded quotes left as they are. */
  function Quote(v: string): (r: string)
    ensures |r| == |v| + 2 && r[0] == '"' && r[|r| - 1] == '"'
    ensures r[1..|r| - 1] == v
  {
    "\"" + v + "\""
  }

  /** The values of a row in header order. */
  function Fields(headers: seq<string>, row: Row): (r: seq<string>)
    ensures |r| == |headers|
    ensures forall i :: 0 <= i < |headers| ==> r[i] == FieldValue(row, HeaderKey(headers[i]))
  {
    seq(|headers|, i requires 0 <= i < |headers| => FieldValue(row, HeaderKey(headers[i])))
  }

  function QuoteAll(vs: seq<string>): (r: seq<string>)
    ensures |r| == |vs|
    ensures forall i :: 0 <= i < |vs| ==> r[i] == Quote(vs[i])
  {
    seq(|vs|, i requires 0 <= i < |vs| => Quote(vs[i]))
  }

  /** `headers.join(",")`: a single line when no header holds a line feed. */
  function HeaderLine(headers: seq<string>): (r: string)
    ensures (forall i :: 0 <= i < |headers| ==> '\n' !in headers[i]) ==> '\n' !in r
  {
    JoinAvoids(headers, ",", '\n');
    Join(headers, ",")
  }

  /** One data line: each header's field quoted, joined by commas; a single line when no value holds a line feed. */
  function DataLine(headers: seq<string>, row: Row): (r: string)
    ensures (forall k :: k in row ==> '\n' !in row[k]) ==> '\n' !in r
  {
    var fs := Fields(headers, row);
    DataLineAvoids(headers, row, '\n');
    Join(QuoteAll(fs), ",")
  }

  /** A data line avoids any character other than the quote and the comma that the row's values avoid. */
  lemma DataLineAvoids(headers: seq<string>, row: Row, c: char)
    requires c != '"' && c != ','
    ensures (forall k :: k in row ==> c !in row[k]) ==> c !in Join(QuoteAll(Fields(headers, row)), ",")
  {
    if forall k :: k in row ==> c !in row[k] {
      var fs := Fields(headers, row);
      forall j | 0 <= j < |fs| ensures c !in QuoteAll(fs)[j] {
        assert QuoteAll(fs)[j] == "\"" + fs[j] + "\"";
      }
      JoinAvoids(QuoteAll(fs), ",", c);
    }
  }

  /** The data lines, one per row, in row order. */
  function DataLines(headers: seq<string>, rows: seq<Row>): (r: seq<string>)
    ensures |r| == |rows|
    ensures forall i :: 0 <= i < |rows| ==> r[i] == DataLine(headers, rows[i])
  {
    seq(|rows|, i requires 0 <= i < |rows| => DataLine(headers, rows[i]))
  }

  /** `exportToCSV`'s content: the header line and the data lines joined by "\n"; with no rows, just the header line. */
  function CsvContent(headers: seq<string>, rows: seq<Row>): (r: string)
    ensures HeaderLine(headers) <= r
    ensures rows == [] ==> r == HeaderLine(headers)
  {
    Join([HeaderLine(headers)] + DataLines(headers, rows), "\n")
  }

  /** No value of any row holds character `c`. */
  predicate ValuesAvoid(rows: seq<Row>, c: char)
  {
    forall i, k :: 0 <= i < |rows| && k in rows[i] ==> c !in rows[i][k]
  }

  /**
   * When neither headers nor values hold a line feed, the content splits
   * into exactly the header line followed by one line per row: `|rows| + 1`
   * lines, no trailing empty line.
   */
  lemma CsvLines(headers: seq<string>, rows: seq<Row>)
    requires forall i :: 0 <= i < |headers| ==> '\n' !in headers[i]
    requires ValuesAvoid(rows, '\n')
    ensures Split(CsvContent(headers, rows), '\n') == [HeaderLine(headers)] + DataLines(headers, rows)
    ensures |Split(CsvContent(headers, rows), '\n')| == |rows| + 1
  {
    var lines := [HeaderLine(headers)] + DataLines(headers, rows);
    forall i | 0 <= i < |lines| ensures '\n' !in lines[i] {
      if i > 0 {
        assert lines[i] == DataLine(headers, rows[i - 1]);
      }
    }
    SplitJoin(lines, '\n');
  }

  /** The header line splits back into the headers when no header holds a comma. */
  lemma HeaderLineSplits(headers: seq<string>)
    requires |headers| >= 1
    requires forall i :: 0 <= i < |headers| ==> ',' !in headers[i]
    ensures Split(HeaderLine(headers), ',') == headers
  {
    SplitJoin(headers, ',');
  }

  /**
   * Reading a line of quoted fields: a quote, the text up to the next quote,
   * then either the end of the line or a comma and the next field.
   */
  function ParseQuotedFields(line: string): Option<seq<string>>
    decreases |line|
  {
    if |line| < 2 || line[0] != '"' then None
    else
      var body := line[1..];
      var k := IndexOf(body, '"');
      if k == |body| then None
      else
        var rest := body[k + 1..];
        if rest == [] then Some([body[..k]])
        else if rest[0] != ',' then None
        else
          match ParseQuotedFields(rest[1..])
          case None => None
          case Some(vs) => Some([body[..k]] + vs)
  }

  /** A last quoted field reads back to its value. */
  lemma ParseLastField(v: string)
    requires '"' !in v
    ensures ParseQuotedFields(Quote(v)) == Some([v])
  {
    var line := Quote(v);
    assert line[1..] == v + ['"'] + [];
    IndexOfAfter(v, '"', []);
    assert line[1..][..|v|] == v;
    assert line[1..][|v| + 1..] == [];
  }

  /** A quoted field followed by a comma reads back to its value, then the rest of the line. */
  lemma ParseFieldThenRest(v: string, tail: string)
    requires '"' !in v
    ensures ParseQuotedFields(Quote(v) + "," + tail) ==
      match ParseQuotedFields(tail)
      case None => None
      case Some(vs) => Some([v] + vs)
  {
    var line := Quote(v) + "," + tail;
    var body := line[1..];
    assert body == v + ['"'] + ("," + tail);
    IndexOfAfter(v, '"', "," + tail);
    assert body[..|v|] == v;
    assert body[|v| + 1..] == "," + tail;
    assert body[|v| + 1..][1..] == tail;
  }

  /** Quoted fields read back to the values, provided no value holds a double quote. */
  lemma {:induction false} ParseQuotedJoin(vs: seq<string>)
    requires |vs| >= 1
    requires forall i :: 0 <= i < |vs| ==> '"' !in vs[i]
    ensures ParseQuotedFields(Join(QuoteAll(vs), ",")) == Some(vs)
  {
    if |vs| == 1 {
      assert Join(QuoteAll(vs), ",") == Quote(vs[0]);
      ParseLastField(vs[0]);
      assert vs == [vs[0]];
    } else {
      ParseQuotedJoin(vs[1..]);
      assert QuoteAll(vs)[1..] == QuoteAll(vs[1..]);
      assert Join(QuoteAll(vs), ",") == Quote(vs[0]) + "," + Join(QuoteAll(vs[1..]), ",");
      ParseFieldThenRest(vs[0], Join(QuoteAll(vs[1..]), ","));
      assert vs == [vs[0]] + vs[1..];
    }
  }

  /**
   * Every data line holds one field per header, in header order, and reads
   * back to the row's values when none of them holds a double quote.
   */
  lemma DataLineRoundTrip(headers: seq<string>, row: Row)
    requires |headers| >= 1
    requires forall k :: k in row ==> '"' !in row[k]
    ensures ParseQuotedFields(DataLine(headers, row)) == Some(Fields(headers, row))
  {
    var fs := Fields(headers, row);
    forall i | 0 <= i < |fs| ensures '"' !in fs[i] {
      assert fs[i] == FieldValue(row, HeaderKey(headers[i]));
    }
    ParseQuotedJoin(fs);
  }

  /**
   * Embedded quotes are not escaped, so two different rows can produce the
   * same line: a name `x","y` with email `z` prints like name `x` with email `y","z`.
   */
  lemma EmbeddedQuotesCollide()
    ensures var h := ["Name", "Email"];
      var r1 := map["name" := "x\",\"y", "email" := "z"];
      var r2 := map["name" := "x", "email" := "y\",\"z"];
      r1 != r2 && DataLine(h, r1) == DataLine(h, r2)
  {
    var h := ["Name", "Email"];
    var r1 := map["name" := "x\",\"y", "email" := "z"];
    var r2 := map["name" := "x", "email" := "y\",\"z"];
    assert HeaderKey("Name") == "name";
    assert HeaderKey("Email") == "email";
    assert r1["name"] != r2["name"];
    assert Fields(h, r1) == ["x\",\"y", "z"];
    assert Fields(h, r2) == ["x", "y\",\"z"];
    assert DataLine(h, r1) == Quote("x\",\"y") + "," + Quote("z");
    assert DataLine(h, r2) == Quote("x") + "," + Quote("y\",\"z");
  }
}
