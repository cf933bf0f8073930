/** The CSV text both the download endpoint and the results view produce: the
    header and row layout of RFC 4180 section 2, one line per result, fields
    joined by commas with no quoting, lines joined by LF with no final newline. */
module Csv {
  import opened Common
  import opened Db

  const Header: string := "IP,Port,Protocol,Status,Timestamp"

  /** The fields of one result, in column order. */
  function Fields(r: ScanResult): (f: seq<string>)
    ensures |f| == 5
    ensures f[0] == r.ip && f[1] == IntToString(r.port) && f[2] == r.protocol
    ensures f[3] == r.status && f[4] == TimeText(r.timestamp)
  {
    [r.ip, IntToString(r.port), r.protocol, r.status, TimeText(r.timestamp)]
  }

  function Row(r: ScanResult): string {
    Join(Fields(r), ",")
  }

  function Rows(rs: seq<ScanResult>): (lines: seq<string>)
    ensures |lines| == |rs|
    ensures forall i :: 0 <= i < |rs| ==> lines[i] == Row(rs[i])
    decreases |rs|
  {
    if rs == [] then [] else [Row(rs[0])] + Rows(rs[1..])
  }

  /** The text opens with the header line. */
  function Content(rs: seq<ScanResult>): (r: string)
    ensures IsPrefix(Header, r)
  {
    JoinEnds([Header] + Rows(rs), "\n");
    Join([Header] + Rows(rs), "\n")
  }

  /** No field of the result holds a line break. */
  predicate SingleLine(r: ScanResult) {
    '\n' !in r.ip && '\n' !in r.protocol && '\n' !in r.status
  }

  /** No field of the result holds a comma. */
  predicate CommaFree(r: ScanResult) {
    ',' !in r.ip && ',' !in r.protocol && ',' !in r.status
  }

  lemma DecimalTextHasNoPunctuation(i: int)
    ensures '\n' !in IntToString(i) && ',' !in IntToString(i)
  {
    var d := NatToString(if i < 0 then -i else i);
    assert AllDigits(d);
    assert IntToString(i) == (if i < 0 then "-" + d else d);
  }

  lemma TimeTextHasNoPunctuation(t: Instant)
    ensures '\n' !in TimeText(t) && ',' !in TimeText(t)
  {
    var d := TimeText(t);
    assert AllDigits(d);
  }

  /** Splitting the content at line breaks gives the header and then one row per
      result, in order, when no field holds a line break. */
  lemma ContentLines(rs: seq<ScanResult>)
    requires forall i :: 0 <= i < |rs| ==> SingleLine(rs[i])
    ensures Split(Content(rs), '\n') == [Header] + Rows(rs)
    ensures |Split(Content(rs), '\n')| == |rs| + 1
  {
    var lines := [Header] + Rows(rs);
    forall k | 0 <= k < |lines| ensures '\n' !in lines[k] {
      if k > 0 {
        var r := rs[k - 1];
        assert lines[k] == Join(Fields(r), ",");
        RowIsSingleLine(r);
      }
    }
    SplitJoin(lines, '\n');
  }

  /** Splitting a row at commas gives back its five fields when no text field
      holds a comma. */
  lemma RowFields(r: ScanResult)
    requires CommaFree(r)
    ensures Split(Row(r), ',') == Fields(r)
  {
    DecimalTextHasNoPunctuation(r.port);
    TimeTextHasNoPunctuation(r.timestamp);
    SplitJoin(Fields(r), ',');
  }

  /** A comma inside an address is not quoted: the row then splits into six
      parts and the columns shift. */
  lemma CommaInAddressShiftsColumns(r: ScanResult)
    requires CommaFree(r.(ip := "a"))
    ensures |Split(Row(r.(ip := "a,b")), ',')| == 6
  {
    var s := r.(ip := "a,b");
    var f := Fields(s);
    DecimalTextHasNoPunctuation(s.port);
    TimeTextHasNoPunctuation(s.timestamp);
    var rest := ["b"] + f[1..];
    forall k | 0 <= k < |rest| ensures ',' !in rest[k] {
    }
    SplitJoin(rest, ',');
    assert Join(f, ",") == "a" + [','] + Join(rest, ",");
    SplitAtFirst("a", ',', Join(rest, ","));
  }

  /** A row of single-line fields is a single line. */
  lemma RowIsSingleLine(r: ScanResult)
    requires SingleLine(r)
    ensures '\n' !in Row(r)
  {
    DecimalTextHasNoPunctuation(r.port);
    TimeTextHasNoPunctuation(r.timestamp);
    JoinAvoids(Fields(r), ",", '\n');
  }

  /** A join whose parts and separator avoid a character avoids it too. */
  lemma {:induction false} JoinAvoids(parts: seq<string>, sep: string, c: char)
    requires c !in sep
    requires forall i :: 0 <= i < |parts| ==> c !in parts[i]
    ensures c !in Join(parts, sep)
    decreases |parts|
  {
    if |parts| > 1 {
      JoinAvoids(parts[1..], sep, c);
    }
  }
}
