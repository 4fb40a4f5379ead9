/** The static GTFS lookups: the route id -> short name table from
    routes.txt and the stop id -> name table from stops.txt. The file is
    given as the records the CSV tokeniser produces; the reader applies Go's
    encoding/csv rule that every record has as many fields as the first. */
module BusStatic {
  import opened Text

  /** What the CSV tokeniser yields for one record: its fields, or a syntax
      error. The end of the sequence is the end of the file. */
  datatype Record = Row(fields: seq<string>) | SyntaxError

  datatype Result<T> = Ok(value: T) | Fatal

  const RouteIdColumn := "route_id"
  const RouteNameColumn := "route_short_name"
  const StopIdColumn := "stop_id"
  const StopNameColumn := "stop_name"

  /** The tokeniser never yields a record without fields. */
  predicate Tokenised(records: seq<Record>) {
    forall k :: 0 <= k < |records| && records[k].Row? ==> |records[k].fields| >= 1
  }

  // ------------------------------------------------------------ header map

  /** The map key of column i: its header, or "NULL" and the column number
      when the header is empty. */
  function ColumnKey(h: string, i: nat): string {
    if h == "" then "NULL" + NatToString(i) else h
  }

  /** The header map built column by column; a later column with the same
      key overwrites an earlier one. */
  function HeaderMap(line: seq<string>): map<string, nat>
    decreases |line|
  {
    if line == [] then map[]
    else HeaderMap(line[..|line| - 1])[ColumnKey(line[|line| - 1], |line| - 1) := |line| - 1]
  }

  /** The header map has a key for every column and no other. */
  lemma {:induction false} HeaderMapKeys(line: seq<string>)
    ensures forall k :: k in HeaderMap(line) <==> exists i :: 0 <= i < |line| && ColumnKey(line[i], i) == k
    decreases |line|
  {
    if line != [] {
      var prefix := line[..|line| - 1];
      HeaderMapKeys(prefix);
      forall k
        ensures k in HeaderMap(line) <==> exists i :: 0 <= i < |line| && ColumnKey(line[i], i) == k
      {
        if k in HeaderMap(prefix) {
          var i :| 0 <= i < |prefix| && ColumnKey(prefix[i], i) == k;
          assert line[i] == prefix[i];
        }
        if i :| 0 <= i < |line| - 1 && ColumnKey(line[i], i) == k {
          assert prefix[i] == line[i];
        }
      }
    }
  }

  /** Each key of the header map gives the last column that carries it. */
  lemma {:induction false} HeaderMapLastColumn(line: seq<string>, k: string)
    requires k in HeaderMap(line)
    ensures HeaderMap(line)[k] < |line| && ColumnKey(line[HeaderMap(line)[k]], HeaderMap(line)[k]) == k
    ensures forall j :: HeaderMap(line)[k] < j < |line| ==> ColumnKey(line[j], j) != k
    decreases |line|
  {
    var prefix := line[..|line| - 1];
    var n := |line| - 1;
    if ColumnKey(line[n], n) != k {
      HeaderMapLastColumn(prefix, k);
      var c := HeaderMap(prefix)[k];
      assert line[c] == prefix[c];
      forall j | c < j < |line|
        ensures ColumnKey(line[j], j) != k
      {
        if j < n {
          assert line[j] == prefix[j];
        }
      }
    }
  }

  /** Distinct empty header cells get distinct keys. */
  lemma EmptyColumnsDistinct(i: nat, j: nat)
    requires i != j
    ensures ColumnKey("", i) != ColumnKey("", j)
  {
    if ColumnKey("", i) == ColumnKey("", j) {
      assert NatToString(i) == ColumnKey("", i)[4..];
      assert NatToString(j) == ColumnKey("", j)[4..];
      NatToStringInjective(i, j);
    }
  }

  /** The header loop of getRoutes/getStops. */
  method HeaderIndexes(line: seq<string>) returns (headers: map<string, nat>)
    ensures headers == HeaderMap(line)
  {
    headers := map[];
    var i := 0;
    while i < |line|
      invariant 0 <= i <= |line|
      invariant headers == HeaderMap(line[..i])
    {
      assert line[..i + 1][..i] == line[..i];
      var h := line[i];
      if h == "" {
        h := "NULL" + NatToString(i);
      }
      headers := headers[h := i];
      i := i + 1;
    }
    assert line[..|line|] == line;
  }

  /** A Go map read of the header map: a missing name reads as column 0. */
  function ColumnIndex(line: seq<string>, name: string): nat {
    var m := HeaderMap(line);
    if name in m then m[name] else 0
  }

  /** The column used for a name: the last column carrying it, or column 0
      when no column does. */
  lemma ColumnIndexSpec(line: seq<string>, name: string)
    requires |line| >= 1
    ensures ColumnIndex(line, name) < |line|
    ensures (exists i :: 0 <= i < |line| && ColumnKey(line[i], i) == name) ==>
      ColumnKey(line[ColumnIndex(line, name)], ColumnIndex(line, name)) == name
      && forall j :: ColumnIndex(line, name) < j < |line| ==> ColumnKey(line[j], j) != name
    ensures (forall i :: 0 <= i < |line| ==> ColumnKey(line[i], i) != name) ==> ColumnIndex(line, name) == 0
  {
    HeaderMapKeys(line);
    if name in HeaderMap(line) {
      HeaderMapLastColumn(line, name);
    }
  }

  /** A routes file without a route_id header reads the ids from column 0,
      here the short names. */
  lemma MissingHeaderReadsFirstColumn()
    ensures ColumnIndex(["route_short_name", "route_long_name"], RouteIdColumn) == 0
    ensures ColumnIndex(["route_short_name", "route_long_name"], RouteNameColumn) == 0
  {
    var line := ["route_short_name", "route_long_name"];
    assert ColumnKey(line[0], 0) == "route_short_name";
    assert ColumnKey(line[1], 1) == "route_long_name";
    ColumnIndexSpec(line, RouteIdColumn);
    ColumnIndexSpec(line, RouteNameColumn);
  }

  // ------------------------------------------------------------- row fold

  /** The data rows the read loop takes: records up to the first syntax
      error, the first record of the wrong width, or the end of the file. */
  function DataRows(records: seq<Record>, width: nat): (rows: seq<seq<string>>)
    ensures |rows| <= |records|
    ensures forall k :: 0 <= k < |rows| ==> records[k] == Row(rows[k]) && |rows[k]| == width
    ensures |rows| < |records| ==> !(records[|rows|].Row? && |records[|rows|].fields| == width)
    decreases |records|
  {
    if records == [] || !(records[0].Row? && |records[0].fields| == width) then []
    else [records[0].fields] + DataRows(records[1..], width)
  }

  /** Rows after the first failed read are never looked at. */
  lemma {:induction false} RowsAfterFailureIgnored(records: seq<Record>, more: seq<Record>, width: nat, k: int)
    requires 0 <= k < |records|
    requires !(records[k].Row? && |records[k].fields| == width)
    ensures DataRows(records + more, width) == DataRows(records[..k], width)
    decreases k
  {
    if k == 0 {
      assert (records + more)[0] == records[0];
    } else {
      assert (records + more)[0] == records[0];
      assert (records + more)[1..] == records[1..] + more;
      assert records[..k][1..] == records[1..][..k - 1];
      RowsAfterFailureIgnored(records[1..], more, width, k - 1);
    }
  }

  /** The id -> name map: each data row writes its name under its id, a
      later row overwriting an earlier one. */
  function IdToName(rows: seq<seq<string>>, idIdx: nat, nameIdx: nat): (m: map<string, string>)
    requires forall k :: 0 <= k < |rows| ==> idIdx < |rows[k]| && nameIdx < |rows[k]|
    ensures forall id :: id in m <==> exists k :: 0 <= k < |rows| && rows[k][idIdx] == id
    decreases |rows|
  {
    if rows == [] then map[]
    else
      var prefix := rows[..|rows| - 1];
      var last := rows[|rows| - 1];
      assert forall k :: 0 <= k < |prefix| ==> rows[k] == prefix[k];
      IdToName(prefix, idIdx, nameIdx)[last[idIdx] := last[nameIdx]]
  }

  /** Each id maps to the name in the last row carrying it. */
  lemma {:induction false} LastRowWins(rows: seq<seq<string>>, idIdx: nat, nameIdx: nat, k: int)
    requires forall r :: 0 <= r < |rows| ==> idIdx < |rows[r]| && nameIdx < |rows[r]|
    requires 0 <= k < |rows|
    requires forall r :: k < r < |rows| ==> rows[r][idIdx] != rows[k][idIdx]
    ensures IdToName(rows, idIdx, nameIdx)[rows[k][idIdx]] == rows[k][nameIdx]
    decreases |rows|
  {
    if k < |rows| - 1 {
      var prefix := rows[..|rows| - 1];
      assert prefix[k] == rows[k];
      LastRowWins(prefix, idIdx, nameIdx, k);
    }
  }

  /** The table a static file yields: a file whose first read fails is
      fatal; otherwise the header picks the two columns and the data rows
      fill the map. */
  function Table(records: seq<Record>, idColumn: string, nameColumn: string): Result<map<string, string>>
    requires Tokenised(records)
  {
    if records == [] || records[0].SyntaxError? then Fatal
    else
      var header := records[0].fields;
      ColumnIndexSpec(header, idColumn);
      ColumnIndexSpec(header, nameColumn);
      Ok(IdToName(DataRows(records[1..], |header|), ColumnIndex(header, idColumn), ColumnIndex(header, nameColumn)))
  }

  /** Every row has the given width. */
  predicate HasWidth(rows: seq<seq<string>>, width: nat) {
    forall k :: 0 <= k < |rows| ==> |rows[k]| == width
  }

  lemma IdToNameStep(rows: seq<seq<string>>, width: nat, idIdx: nat, nameIdx: nat, i: int)
    requires HasWidth(rows, width) && idIdx < width && nameIdx < width
    requires 0 <= i < |rows|
    ensures IdToName(rows[..i + 1], idIdx, nameIdx) == IdToName(rows[..i], idIdx, nameIdx)[rows[i][idIdx] := rows[i][nameIdx]]
  {
    assert rows[..i + 1][..i] == rows[..i];
  }

  /** The read loop shared by getRoutes and getStops. */
  method ReadTable(records: seq<Record>, idColumn: string, nameColumn: string)
    returns (res: Result<map<string, string>>)
    requires Tokenised(records)
    ensures res == Table(records, idColumn, nameColumn)
  {
    if |records| == 0 || records[0].SyntaxError? {
      return Fatal;
    }
    var line := records[0].fields;
    var headers := HeaderIndexes(line);
    ColumnIndexSpec(line, idColumn);
    ColumnIndexSpec(line, nameColumn);
    var idIdx := if idColumn in headers then headers[idColumn] else 0;
    var nameIdx := if nameColumn in headers then headers[nameColumn] else 0;
    ghost var rows := DataRows(records[1..], |line|);
    assert HasWidth(rows, |line|);
    var table: map<string, string> := map[];
    var i := 1;
    while true
      invariant 1 <= i <= |records|
      invariant i - 1 <= |rows|
      invariant table == IdToName(rows[..i - 1], idIdx, nameIdx)
      decreases |records| - i
    {
      if i == |records| || records[i].SyntaxError? || |records[i].fields| != |line| {
        break;
      }
      assert records[1..][i - 1] == records[i];
      assert i - 1 < |rows| && rows[i - 1] == records[i].fields;
      IdToNameStep(rows, |line|, idIdx, nameIdx, i - 1);
      var fields := records[i].fields;
      table := table[fields[idIdx] := fields[nameIdx]];
      i := i + 1;
    }
    assert i - 1 == |rows|;
    assert rows[..i - 1] == rows;
    return Ok(table);
  }

  /** getRoutes: route id -> route short name. */
  method GetRoutes(records: seq<Record>) returns (res: Result<map<string, string>>)
    requires Tokenised(records)
    ensures res == Table(records, RouteIdColumn, RouteNameColumn)
  {
    res := ReadTable(records, RouteIdColumn, RouteNameColumn);
  }

  /** getStops: stop id -> stop name. */
  method GetStops(records: seq<Record>) returns (res: Result<map<string, string>>)
    requires Tokenised(records)
    ensures res == Table(records, StopIdColumn, StopNameColumn)
  {
    res := ReadTable(records, StopIdColumn, StopNameColumn);
  }
}
