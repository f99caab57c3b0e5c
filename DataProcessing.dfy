/**
  The pure parts of the data-processing tools (tools/data_processing.py):
  the dot-path walk of `_query_json` over a decoded JSON document, the
  summary `_read_csv` prints for the rows the CSV reader produced, and the
  row splitting and report of `_write_csv`. Files are not read or written:
  the decoded document and the parsed rows are parameters.
*/
module DataProcessing {
  import opened Json
  import opened Strings

  // ---------------------------------------------------------------------------
  // `_query_json`: the dot-path walk
  // ---------------------------------------------------------------------------

  /** Where a walk stands: a value reached, or the first segment that failed and why. */
  datatype Step =
    | Reached(value: Json)
    | MissingKey(key: string)
    | OutOfRange(index: nat)

  /**
    One segment of the walk: a present key of an object descends into it; an
    all-digit segment indexes an array when it is in range and is reported
    out of range otherwise; anything else (a missing key, a non-digit segment
    such as `-1` on an array, any segment on a scalar) is a missing key.
  */
  function Descend(v: Json, key: string): (st: Step)
    ensures st.Reached? <==>
      (v.JObject? && key in v.fields) || (v.JArray? && IsDigits(key) && DecimalValue(key) < |v.items|)
    ensures st.Reached? && v.JObject? ==> st.value == v.fields[key]
    ensures st.Reached? && v.JArray? ==> st.value == v.items[DecimalValue(key)]
    ensures st.OutOfRange? <==> v.JArray? && IsDigits(key) && DecimalValue(key) >= |v.items|
    ensures st.OutOfRange? ==> st.index == DecimalValue(key)
    ensures st.MissingKey? ==> st.key == key
  {
    if v.JObject? && key in v.fields then Reached(v.fields[key])
    else if v.JArray? && IsDigits(key) then
      var idx := DecimalValue(key);
      if idx < |v.items| then Reached(v.items[idx]) else OutOfRange(idx)
    else MissingKey(key)
  }

  /** The walk over a list of segments: descend one segment at a time, stop at the first failure. */
  function WalkPath(v: Json, keys: seq<string>): (st: Step)
    ensures keys == [] ==> st == Reached(v)
    ensures st.MissingKey? ==> st.key in keys
  {
    if keys == [] then Reached(v)
    else
      match Descend(v, keys[0])
      case Reached(w) => WalkPath(w, keys[1..])
      case failure => failure
  }

  /** Continue a walk that stands at `st` with the segments `keys`. */
  function Then(st: Step, keys: seq<string>): Step {
    if st.Reached? then WalkPath(st.value, keys) else st
  }

  /** Walking a concatenation of segment lists is walking the first, then the second from there. */
  lemma {:induction false} WalkConcat(v: Json, keys1: seq<string>, keys2: seq<string>)
    ensures WalkPath(v, keys1 + keys2) == Then(WalkPath(v, keys1), keys2)
  {
    if keys1 == [] {
      assert keys1 + keys2 == keys2;
    } else {
      assert (keys1 + keys2)[0] == keys1[0];
      assert (keys1 + keys2)[1..] == keys1[1..] + keys2;
      match Descend(v, keys1[0])
      case Reached(w) => WalkConcat(w, keys1[1..], keys2);
      case _ =>
    }
  }

  lemma SplitAt<T>(s: seq<T>, k: nat)
    requires k <= |s|
    ensures s[..k] + s[k..] == s
  {
  }

  /** A walk over one segment is a single descent. */
  lemma WalkOne(v: Json, key: string)
    ensures WalkPath(v, [key]) == Descend(v, key)
  {
    match Descend(v, key)
    case Reached(w) => assert WalkPath(w, []) == Reached(w);
    case _ =>
  }

  /** The walk stops at the first failing segment: what follows it is never looked at. */
  lemma WalkStopsAtFailure(v: Json, keys1: seq<string>, keys2: seq<string>)
    requires !WalkPath(v, keys1).Reached?
    ensures WalkPath(v, keys1 + keys2) == WalkPath(v, keys1)
  {
    WalkConcat(v, keys1, keys2);
  }

  /** A scalar with segments left fails at the next segment with a missing key. */
  lemma ScalarHasNoKeys(v: Json, keys: seq<string>)
    requires v.IsScalar() && keys != []
    ensures WalkPath(v, keys) == MissingKey(keys[0])
  {
  }

  /** A negative index is not a digit string: on an array it is reported as a missing key. */
  lemma NegativeIndexIsMissingKey(items: seq<Json>)
    ensures Descend(JArray(items), "-1") == MissingKey("-1")
  {
    assert !IsDigit("-1"[0]);
  }

  /** What `_query_json` reports: the value reached, or an error text. */
  datatype Answer = Found(value: Json) | Failed(message: string)

  function KeyNotFoundMessage(key: string, jsonPath: string): string {
    "Error: Key '" + key + "' not found in path '" + jsonPath + "'"
  }

  function IndexOutOfRangeMessage(index: nat): string {
    "Error: Index " + NatToString(index) + " out of range"
  }

  /** The answer to a query: the walk over the path split on `.`, with its failure rendered. */
  function QueryAnswer(data: Json, jsonPath: string): (a: Answer)
    ensures a.Found? <==> WalkPath(data, Split(jsonPath, '.')).Reached?
    ensures a.Found? ==> a.value == WalkPath(data, Split(jsonPath, '.')).value
  {
    match WalkPath(data, Split(jsonPath, '.'))
    case Reached(v) => Found(v)
    case MissingKey(key) => Failed(KeyNotFoundMessage(key, jsonPath))
    case OutOfRange(index) => Failed(IndexOutOfRangeMessage(index))
  }

  /**
    Compositionality: when the path `p1` reaches a value, the path `p1.p2`
    reaches exactly what `p2` reaches from that value, and fails exactly where
    `p2` fails from there.
  */
  lemma QueryCompositional(data: Json, p1: string, p2: string)
    requires WalkPath(data, Split(p1, '.')).Reached?
    ensures WalkPath(data, Split(p1 + "." + p2, '.'))
      == WalkPath(WalkPath(data, Split(p1, '.')).value, Split(p2, '.'))
  {
    SplitAround(p1, '.', p2);
    WalkConcat(data, Split(p1, '.'), Split(p2, '.'));
  }

  /** A path without dots is a single segment: a lookup of exactly that key or index. */
  lemma SingleSegmentQuery(data: Json, key: string)
    requires '.' !in key
    ensures WalkPath(data, Split(key, '.')) == Descend(data, key)
  {
    SplitWithoutSeparator(key, '.');
    WalkOne(data, key);
  }

  /**
    The loop of `_query_json`: `result` starts at the document and is
    reassigned once per segment; the first failing segment returns its error.
  */
  method QueryJson(data: Json, jsonPath: string) returns (answer: Answer)
    ensures answer == QueryAnswer(data, jsonPath)
  {
    var keys := Split(jsonPath, '.');
    var result := data;
    for n := 0 to |keys|
      invariant WalkPath(data, keys[..n]) == Reached(result)
    {
      var key := keys[n];
      assert keys[..n + 1] == keys[..n] + [key];
      WalkConcat(data, keys[..n], [key]);
      WalkOne(result, key);
      if result.JObject? && key in result.fields {
        result := result.fields[key];
      } else if result.JArray? && IsDigits(key) {
        var idx := DecimalValue(key);
        if idx < |result.items| {
          result := result.items[idx];
        } else {
          WalkStopsAtFailure(data, keys[..n + 1], keys[n + 1..]);
          SplitAt(keys, n + 1);
          return Failed(IndexOutOfRangeMessage(idx));
        }
      } else {
        WalkStopsAtFailure(data, keys[..n + 1], keys[n + 1..]);
        SplitAt(keys, n + 1);
        return Failed(KeyNotFoundMessage(key, jsonPath));
      }
    }
    assert keys[..|keys|] == keys;
    answer := Found(result);
  }

  // ---------------------------------------------------------------------------
  // `_read_csv`: the summary of the parsed rows
  // ---------------------------------------------------------------------------

  /** At most this many rows are listed. */
  const MaxListedRows: nat := 20

  function Min(a: nat, b: nat): nat {
    if a < b then a else b
  }

  function CsvHeader(rows: seq<seq<string>>): string
    requires rows != []
  {
    "Found " + NatToString(|rows|) + " rows, " + NatToString(|rows[0]|) + " columns\n"
  }

  /** The listing line of row number `number` (counted from 1). */
  function RowLine(number: nat, row: seq<string>): string {
    "Row " + NatToString(number) + ": " + Join(row, ", ")
  }

  function MoreRowsLine(hidden: nat): string {
    "\n... and " + NatToString(hidden) + " more rows"
  }

  /** The listing lines of the first `k` rows, numbered from 1. */
  function NumberedRows(rows: seq<seq<string>>, k: nat): (lines: seq<string>)
    requires k <= |rows|
    ensures |lines| == k
    ensures forall i :: 0 <= i < k ==> lines[i] == RowLine(i + 1, rows[i])
  {
    seq(k, i requires 0 <= i < k => RowLine(i + 1, rows[i]))
  }

  /**
    The lines of the summary: the header, one line for each of the first
    `min(20, n)` rows numbered from 1, and a count of the rest only when
    there are more than 20 rows.
  */
  function CsvLines(rows: seq<seq<string>>): (lines: seq<string>)
    requires rows != []
    ensures |lines| == 1 + Min(MaxListedRows, |rows|) + (if |rows| > MaxListedRows then 1 else 0)
    ensures lines[0] == CsvHeader(rows)
    ensures forall i :: 0 <= i < Min(MaxListedRows, |rows|) ==> lines[i + 1] == RowLine(i + 1, rows[i])
    ensures |rows| > MaxListedRows ==> lines[|lines| - 1] == MoreRowsLine(|rows| - MaxListedRows)
  {
    var shown := Min(MaxListedRows, |rows|);
    [CsvHeader(rows)] + NumberedRows(rows, shown)
      + (if |rows| > shown then [MoreRowsLine(|rows| - shown)] else [])
  }

  /** What `_read_csv` returns for the rows the reader produced. */
  function CsvSummary(rows: seq<seq<string>>): string {
    if rows == [] then "CSV file is empty" else Join(CsvLines(rows), "\n")
  }

  /** Every row is accounted for: listed, or counted in the closing line. */
  lemma CsvSummaryAccountsForEveryRow(rows: seq<seq<string>>)
    requires rows != []
    ensures var lines := CsvLines(rows);
      var listed := |lines| - 1 - (if |rows| > MaxListedRows then 1 else 0);
      && listed <= MaxListedRows
      && listed + (if |rows| > MaxListedRows then |rows| - MaxListedRows else 0) == |rows|
  {
  }

  /** The loop of `_read_csv` that collects the summary lines, then joins them. */
  method ReadCsv(rows: seq<seq<string>>) returns (out: string)
    ensures out == CsvSummary(rows)
  {
    if rows == [] {
      return "CSV file is empty";
    }
    var header := CsvHeader(rows);
    var maxRows := Min(MaxListedRows, |rows|);
    var listed := [];
    for i := 0 to maxRows
      invariant listed == NumberedRows(rows, i)
    {
      listed := listed + [RowLine(i + 1, rows[i])];
    }
    var result := [header] + listed;
    if |rows| > maxRows {
      result := result + [MoreRowsLine(|rows| - maxRows)];
    }
    assert result == CsvLines(rows);
    out := Join(result, "\n");
  }

  // ---------------------------------------------------------------------------
  // `_write_csv`: row splitting and the report
  // ---------------------------------------------------------------------------

  /**
    The rows `_write_csv` hands to the CSV writer: the whole text stripped and
    split on newlines, each line stripped and split on the delimiter. One row
    per line; each row's cells, rejoined, give the stripped line back.
  */
  function CsvRows(data: string, d: char): (rows: seq<seq<string>>)
    ensures |rows| == Occurrences(Strip(data), '\n') + 1
  {
    var lines := Split(Strip(data), '\n');
    seq(|lines|, i requires 0 <= i < |lines| => Split(Strip(lines[i]), d))
  }

  /** Each row's cells, rejoined by the delimiter, give its stripped line back, and no cell holds the delimiter. */
  lemma CsvRowsCells(data: string, d: char, i: nat)
    requires i < |CsvRows(data, d)|
    ensures Join(CsvRows(data, d)[i], [d]) == Strip(Split(Strip(data), '\n')[i])
    ensures forall k :: 0 <= k < |CsvRows(data, d)[i]| ==> d !in CsvRows(data, d)[i][k]
  {
    var lines := Split(Strip(data), '\n');
    assert CsvRows(data, d)[i] == Split(Strip(lines[i]), d);
  }

  /** A row rendered as one line: its cells joined by the delimiter. */
  function RenderRow(row: seq<string>, d: char): string {
    Join(row, [d])
  }

  function RenderRows(rows: seq<seq<string>>, d: char): seq<string> {
    seq(|rows|, i requires 0 <= i < |rows| => RenderRow(rows[i], d))
  }

  /**
    Rows that survive the round trip: at least one row, every cell free of
    the delimiter and of newlines, and every rendered line non-empty with no
    whitespace at either end (stripping would otherwise eat it).
  */
  predicate Writable(rows: seq<seq<string>>, d: char) {
    && rows != []
    && d != '\n'
    && forall i :: 0 <= i < |rows| ==>
      && rows[i] != []
      && (forall k :: 0 <= k < |rows[i]| ==> d !in rows[i][k] && '\n' !in rows[i][k])
      && var line := RenderRow(rows[i], d);
         line != [] && !IsSpace(line[0]) && !IsSpace(line[|line| - 1])
  }

  /** A newline-free piece joined by a separator that is not a newline holds no newline. */
  lemma JoinAvoids(pieces: seq<string>, d: char, c: char)
    requires c != d
    requires forall k :: 0 <= k < |pieces| ==> c !in pieces[k]
    ensures c !in Join(pieces, [d])
  {
    if |pieces| > 1 {
      JoinAvoids(pieces[1..], d, c);
    }
  }

  lemma JoinStart(pieces: seq<string>, sep: string)
    requires |pieces| > 0 && pieces[0] != []
    ensures Join(pieces, sep) != [] && Join(pieces, sep)[0] == pieces[0][0]
  {
  }

  lemma {:induction false} JoinEnd(pieces: seq<string>, sep: string)
    requires |pieces| > 0 && pieces[|pieces| - 1] != []
    ensures var j := Join(pieces, sep);
      j != [] && j[|j| - 1] == pieces[|pieces| - 1][|pieces[|pieces| - 1]| - 1]
  {
    if |pieces| > 1 {
      JoinEnd(pieces[1..], sep);
    }
  }

  /** Parsing the text made by joining writable rows line by line gives those rows back. */
  lemma {:induction false} CsvRowsRoundTrip(rows: seq<seq<string>>, d: char)
    requires Writable(rows, d)
    ensures CsvRows(Join(RenderRows(rows, d), "\n"), d) == rows
  {
    var lines := RenderRows(rows, d);
    forall i | 0 <= i < |lines|
      ensures '\n' !in lines[i]
    {
      JoinAvoids(rows[i], d, '\n');
    }
    var data := Join(lines, "\n");
    JoinStart(lines, "\n");
    JoinEnd(lines, "\n");
    StripOfStripped(data);
    SplitOfJoin(lines, '\n');
    var parsed := CsvRows(data, d);
    forall i | 0 <= i < |rows|
      ensures parsed[i] == rows[i]
    {
      StripOfStripped(lines[i]);
      SplitOfJoin(rows[i], d);
    }
  }

  /**
    The texts of the exceptions `str.split` and `csv.writer` raise for an
    empty and for a longer delimiter, as CPython 3 words them; other Python
    versions word the second one differently.
  */
  const EmptySeparatorError: string := "Error writing CSV: empty separator"
  const LongDelimiterError: string := "Error writing CSV: \"delimiter\" must be a 1-character string"

  function WroteRowsMessage(count: nat, filePath: string): string {
    "Successfully wrote " + NatToString(count) + " rows to '" + filePath + "'"
  }

  /**
    What `_write_csv` reports. An empty delimiter fails in `split`, a longer
    one in the CSV writer; otherwise the report gives the number of lines of
    the stripped text, which is the number of rows written.
  */
  function WriteCsvReport(filePath: string, data: string, delimiter: string): (report: string)
    ensures |delimiter| == 0 ==> report == EmptySeparatorError
    ensures |delimiter| > 1 ==> report == LongDelimiterError
    ensures |delimiter| == 1 ==> report == WroteRowsMessage(|Split(Strip(data), '\n')|, filePath)
  {
    if |delimiter| == 0 then EmptySeparatorError
    else if |delimiter| > 1 then LongDelimiterError
    else
      var rows := CsvRows(data, delimiter[0]);
      WroteRowsMessage(|rows|, filePath)
  }
}
