/** The structural scan of an uploaded CSV and the textual table an analysis reads back. */
module Csv {
  import opened Wrappers
  import opened External

  const MAX_CSV_BYTES: nat := 10_485_760
  const MAX_COLUMNS: nat := 256
  const MAX_COLUMN_NAME_LENGTH: nat := 128

  datatype StructureError =
    | EmptyCsv
    | InvalidHeader
    | DuplicateColumns
    | InconsistentRowWidth
    | InvalidUtf8
    | MalformedCsv

  datatype Structure = Structure(rowCount: nat, columns: seq<string>)

  type Cell = Option<string>

  datatype Frame = Frame(columns: seq<string>, rows: seq<seq<Cell>>)

  predicate Distinct<T(==)>(s: seq<T>) {
    forall i, j :: 0 <= i < j < |s| ==> s[i] != s[j]
  }

  predicate ValidColumnName(w: World, column: string) {
    && column != ""
    && column == Strip(w, column)
    && |column| <= MAX_COLUMN_NAME_LENGTH
    && forall i :: 0 <= i < |column| ==> 32 <= column[i] as int && column[i] as int != 127
  }

  /** A header the upload accepts. */
  predicate ValidHeader(w: World, header: seq<string>) {
    && 1 <= |header| <= MAX_COLUMNS
    && (forall i :: 0 <= i < |header| ==> ValidColumnName(w, header[i]))
    && Distinct(header)
  }

  /** Every record after the header was read and is as wide as the header. */
  predicate Rectangular(records: seq<Record>) {
    && |records| > 0
    && records[0].Row?
    && forall i :: 0 < i < |records| ==> records[i].Row? && |records[i].fields| == |records[0].fields|
  }

  predicate Scannable(w: World, content: Bytes) {
    var records := w.records(content);
    Rectangular(records) && ValidHeader(w, records[0].fields)
  }

  /** What a successful scan reports about `content`; `Scan` below computes it. */
  function StructureOf(w: World, content: Bytes): (r: Option<Structure>) {
    if Scannable(w, content) then
      Some(Structure(|w.records(content)| - 1, w.records(content)[0].fields))
    else None
  }

  method ValidateHeader(w: World, header: seq<string>) returns (r: Result<seq<string>, StructureError>)
    ensures r.Ok? <==> ValidHeader(w, header)
    ensures r.Ok? ==> r.value == header
    ensures r == Err(DuplicateColumns) ==> !Distinct(header)
  {
    if |header| == 0 || |header| > MAX_COLUMNS {
      return Err(InvalidHeader);
    }
    var columns: seq<string> := [];
    for i := 0 to |header|
      invariant columns == header[..i]
      invariant forall j :: 0 <= j < i ==> ValidColumnName(w, header[j])
    {
      if !ValidColumnName(w, header[i]) {
        return Err(InvalidHeader);
      }
      columns := columns + [header[i]];
    }
    assert columns == header;
    if !Distinct(columns) {
      return Err(DuplicateColumns);
    }
    return Ok(columns);
  }

  /** The upload's scan accepts exactly the rectangular files with a valid header. */
  method Scan(w: World, content: Bytes) returns (r: Result<Structure, StructureError>)
    ensures r.Ok? <==> Scannable(w, content)
    ensures r.Ok? ==> StructureOf(w, content) == Some(r.value)
    ensures w.records(content) == [] ==> r == Err(EmptyCsv)
  {
    var records := w.records(content);
    if records == [] {
      return Err(EmptyCsv);
    }
    match records[0]
    case Malformed => return Err(MalformedCsv);
    case Undecodable => return Err(InvalidUtf8);
    case Row(header) =>
      var checked := ValidateHeader(w, header);
      if checked.Err? {
        return Err(checked.error);
      }
      var columns := checked.value;
      var rowCount := 0;
      for i := 1 to |records|
        invariant rowCount == i - 1
        invariant forall j :: 0 < j < i ==> records[j].Row? && |records[j].fields| == |header|
      {
        match records[i] {
          case Malformed => return Err(MalformedCsv);
          case Undecodable => return Err(InvalidUtf8);
          case Row(fields) =>
            if |fields| != |columns| {
              return Err(InconsistentRowWidth);
            }
        }
        rowCount := rowCount + 1;
      }
      return Ok(Structure(rowCount, columns));
  }

  function TextRow(fields: seq<string>): (r: seq<Cell>)
    ensures |r| == |fields|
  {
    seq(|fields|, i requires 0 <= i < |fields| => Some(fields[i]))
  }

  /** The table an analysis materialises: the same reader, without the upload's header policy. */
  function ReadTable(w: World, content: Bytes): (r: Option<Frame>)
    ensures r.Some? ==> forall i :: 0 <= i < |r.value.rows| ==> |r.value.rows[i]| == |r.value.columns|
  {
    var records := w.records(content);
    if Rectangular(records) then
      Some(Frame(records[0].fields,
                 seq(|records| - 1, i requires 0 <= i < |records| - 1 => TextRow(records[i + 1].fields))))
    else None
  }

  lemma HeaderIff(w: World, columns: seq<string>)
    ensures ValidHeader(w, columns) <==>
      && 1 <= |columns| <= 256
      && (forall j :: 0 <= j < |columns| ==>
            && 1 <= |columns[j]| <= 128
            && !w.isSpace(columns[j][0]) && !w.isSpace(columns[j][|columns[j]| - 1])
            && forall k :: 0 <= k < |columns[j]| ==> columns[j][k] as int >= 32 && columns[j][k] as int != 127)
      && (forall i, j :: 0 <= i < j < |columns| ==> columns[i] != columns[j])
  {
    forall j | 0 <= j < |columns|
      ensures Strip(w, columns[j]) == columns[j] <==>
        columns[j] == "" || (!w.isSpace(columns[j][0]) && !w.isSpace(columns[j][|columns[j]| - 1]))
    {
      TrimmedIff(w, columns[j]);
    }
  }

  lemma RecordsIff(records: seq<Record>)
    requires |records| > 0 && records[0].Row?
    ensures Rectangular(records) <==>
      forall i :: 0 <= i < |records| ==> records[i].Row? && |records[i].fields| == |records[0].fields|
  {
  }

  /**
   What the upload's scan accepts, character by character: n records after a header of 1 to 256
   different names of 1 to 128 characters, without white space at the ends or ASCII control
   characters, all records as wide as the header.
   */
  lemma ScanAcceptsIff(w: World, content: Bytes, n: nat, columns: seq<string>)
    ensures StructureOf(w, content) == Some(Structure(n, columns)) <==>
      var records := w.records(content);
      && |records| == n + 1
      && (forall i :: 0 <= i <= n ==> records[i].Row? && |records[i].fields| == |columns|)
      && records[0].fields == columns
      && 1 <= |columns| <= 256
      && (forall j :: 0 <= j < |columns| ==>
            && 1 <= |columns[j]| <= 128
            && !w.isSpace(columns[j][0]) && !w.isSpace(columns[j][|columns[j]| - 1])
            && forall k :: 0 <= k < |columns[j]| ==> columns[j][k] as int >= 32 && columns[j][k] as int != 127)
      && (forall i, j :: 0 <= i < j < |columns| ==> columns[i] != columns[j])
  {
    var records := w.records(content);
    if |records| == n + 1 && records[0].Row? && records[0].fields == columns {
      HeaderIff(w, columns);
      RecordsIff(records);
    }
  }

  /** The cell in data row i and column j is field j of record i + 1. */
  lemma CellsAreFields(w: World, content: Bytes, i: nat, j: nat)
    requires ReadTable(w, content).Some?
    ensures var frame, records := ReadTable(w, content).value, w.records(content);
      && |records| == |frame.rows| + 1 && records[0] == Row(frame.columns)
      && (i < |frame.rows| && j < |frame.columns| ==>
            && records[i + 1].Row? && |records[i + 1].fields| == |frame.columns|
            && frame.rows[i][j] == Some(records[i + 1].fields[j]))
  {
    if i < |ReadTable(w, content).value.rows| {
      assert ReadTable(w, content).value.rows[i] == TextRow(w.records(content)[i + 1].fields);
    }
  }

  /** Whatever the upload's scan accepted reads back with the columns and height it recorded. */
  lemma ScannedContentReadsBack(w: World, content: Bytes)
    requires StructureOf(w, content).Some?
    ensures ReadTable(w, content).Some?
    ensures ReadTable(w, content).value.columns == StructureOf(w, content).value.columns
    ensures |ReadTable(w, content).value.rows| == StructureOf(w, content).value.rowCount
  {
  }
}
