/**
 * The record readers of the raw-ingest stage and the choice between them:
 * DictReader records built from csv.reader rows (read_csv_rows), JSON Lines
 * (read_jsonl_rows) and spreadsheet records (read_xlsx_rows).
 */
module Readers {
  import opened Wrappers
  import opened Text
  import opened Values
  import opened VendorConfigs
  import opened InputFiles

  /** One record as csv.DictReader builds it from a header and a row: the
      header names zipped with the row's fields, and None (restval) for each
      name beyond the row's end; a repeated name keeps its last column. */
  function DictRow(header: seq<string>, row: seq<string>): (d: map<string, Option<string>>)
    ensures d.Keys == set h | h in header
    decreases |header|
  {
    if header == [] then map[]
    else
      var last := |header| - 1;
      assert forall h :: h in header <==> h in header[..last] || h == header[last] by {
        assert header == header[..last] + [header[last]];
      }
      DictRow(header[..last], row)[header[last] := if last < |row| then Some(row[last]) else None]
  }

  /** Each name gets the field of its last column, or None past the row's end. */
  lemma DictRowField(header: seq<string>, row: seq<string>, i: nat)
    requires i < |header|
    requires forall j :: i < j < |header| ==> header[j] != header[i]
    ensures DictRow(header, row)[header[i]] == if i < |row| then Some(row[i]) else None
    decreases |header|
  {
    var last := |header| - 1;
    if i < last {
      assert header[..last][i] == header[i];
      DictRowField(header[..last], row, i);
    }
  }

  /** The data rows after the header: csv.DictReader skips rows with no
      fields at all. */
  function DataRecords(header: seq<string>, rows: seq<seq<string>>): (r: seq<map<string, Option<string>>>)
    ensures |r| <= |rows|
    ensures forall j :: 0 <= j < |r| ==> r[j].Keys == set h | h in header
  {
    if rows == [] then []
    else if rows[0] == [] then DataRecords(header, rows[1..])
    else [DictRow(header, rows[0])] + DataRecords(header, rows[1..])
  }

  /** csv.DictReader over csv.reader rows: the first row names the fields,
      even when it is blank. */
  function DictRecords(rows: seq<seq<string>>): (r: seq<map<string, Option<string>>>)
    ensures |r| <= |rows|
    ensures forall j :: 0 <= j < |r| ==> r[j].Keys == set h | h in rows[0]
  {
    if rows == [] then [] else DataRecords(rows[0], rows[1..])
  }

  /** The transform of read_csv_rows: an empty field becomes None, every
      other field is kept as the string it is. */
  function CsvRecord(d: map<string, Option<string>>): (r: Record)
    ensures r.Keys == d.Keys
  {
    map k | k in d :: if d[k] == None || d[k] == Some("") then Null else Str(d[k].value)
  }

  lemma CsvRecordEmptyToNull(d: map<string, Option<string>>, k: string)
    requires k in d
    ensures CsvRecord(d)[k] == Null <==> d[k] == None || d[k] == Some("")
    ensures d[k].Some? && d[k].value != "" ==> CsvRecord(d)[k] == Str(d[k].value)
  {
  }

  /** What a reader delivers before the loop consumes it: the records it
      yields, in order, and the error it raises after them, if any. */
  datatype Stream = Stream(records: seq<Value>, failure: Option<IngestError>)

  /** read_jsonl_rows: each line stripped, blank lines skipped, each other line
      decoded; the first line that does not decode ends the stream with its
      error, after the records before it. */
  function JsonlStream(lines: seq<string>, parse: string -> Option<Value>): (s: Stream)
    ensures |s.records| <= |lines|
  {
    if lines == [] then Stream([], None)
    else
      var line := Strip(lines[0]);
      if line == [] then JsonlStream(lines[1..], parse)
      else match parse(line)
        case None => Stream([], Some(MalformedJsonLine(line)))
        case Some(v) =>
          var rest := JsonlStream(lines[1..], parse);
          Stream([v] + rest.records, rest.failure)
  }

  /** With every line decodable, the JSON Lines reader yields one record per
      non-blank line and raises nothing. */
  lemma {:induction false} JsonlStreamComplete(lines: seq<string>, parse: string -> Option<Value>)
    requires forall i :: 0 <= i < |lines| && Strip(lines[i]) != [] ==> parse(Strip(lines[i])).Some?
    ensures JsonlStream(lines, parse).failure == None
    ensures |JsonlStream(lines, parse).records| == NonBlankLines(lines)
  {
    if lines != [] {
      assert forall i :: 0 <= i < |lines[1..]| ==> lines[1..][i] == lines[i + 1];
      JsonlStreamComplete(lines[1..], parse);
    }
  }

  /** The stripped text of each line whose stripped text is not empty, in
      order: what read_jsonl_rows hands to json.loads. */
  function NonBlank(lines: seq<string>): (r: seq<string>)
    ensures |r| == NonBlankLines(lines)
    ensures forall k :: 0 <= k < |r| ==> r[k] != []
  {
    if lines == [] then []
    else (if Strip(lines[0]) != [] then [Strip(lines[0])] else []) + NonBlank(lines[1..])
  }

  /** The decoding loop over lines already stripped and non-blank: each one
      is decoded in turn until the first that does not decode. */
  function DecodeEach(nb: seq<string>, parse: string -> Option<Value>): (s: Stream)
    ensures |s.records| <= |nb|
  {
    if nb == [] then Stream([], None)
    else match parse(nb[0])
      case None => Stream([], Some(MalformedJsonLine(nb[0])))
      case Some(v) =>
        var rest := DecodeEach(nb[1..], parse);
        Stream([v] + rest.records, rest.failure)
  }

  /** Reading JSON Lines is stripping, dropping the blank lines and decoding
      the rest in order. */
  lemma {:induction false} JsonlStreamIsDecodeEach(lines: seq<string>, parse: string -> Option<Value>)
    ensures JsonlStream(lines, parse) == DecodeEach(NonBlank(lines), parse)
  {
    if lines != [] {
      var line := Strip(lines[0]);
      var rest := NonBlank(lines[1..]);
      JsonlStreamIsDecodeEach(lines[1..], parse);
      if line == [] {
        assert NonBlank(lines) == [] + rest == rest;
        assert JsonlStream(lines, parse) == JsonlStream(lines[1..], parse);
      } else {
        var nb := [line] + rest;
        assert NonBlank(lines) == nb;
        assert nb[0] == line && nb[1..] == rest;
        match parse(line)
        case None =>
          assert JsonlStream(lines, parse) == Stream([], Some(MalformedJsonLine(line))) == DecodeEach(nb, parse);
        case Some(v) =>
          assert JsonlStream(lines, parse) == Stream([v] + JsonlStream(lines[1..], parse).records, JsonlStream(lines[1..], parse).failure);
          assert DecodeEach(nb, parse) == Stream([v] + DecodeEach(rest, parse).records, DecodeEach(rest, parse).failure);
      }
    }
  }

  /** Each record is the decoding of the line at its position; with no error
      every line gave one, and an error names the first line that does not
      decode, right after the records before it. */
  lemma {:induction false} DecodeEachShape(nb: seq<string>, parse: string -> Option<Value>)
    ensures var s := DecodeEach(nb, parse);
      && (forall k :: 0 <= k < |s.records| ==> parse(nb[k]) == Some(s.records[k]))
      && (s.failure.None? ==> |s.records| == |nb|)
      && (s.failure.Some? ==>
            && |s.records| < |nb| && parse(nb[|s.records|]) == None
            && s.failure.value == MalformedJsonLine(nb[|s.records|]))
  {
    if nb != [] && parse(nb[0]).Some? {
      DecodeEachShape(nb[1..], parse);
      var s, rest := DecodeEach(nb, parse), DecodeEach(nb[1..], parse);
      forall k | 0 <= k < |s.records| ensures parse(nb[k]) == Some(s.records[k]) {
        if k > 0 {
          assert nb[k] == nb[1..][k - 1] && s.records[k] == rest.records[k - 1];
        }
      }
    }
  }

  /** The JSON Lines reader against the non-blank lines: the record at
      position k is the decoding of the k-th non-blank line; with no error
      every non-blank line gave one, and an error names the first non-blank
      line that does not decode, right after the records before it. */
  lemma JsonlStreamShape(lines: seq<string>, parse: string -> Option<Value>)
    ensures var s, nb := JsonlStream(lines, parse), NonBlank(lines);
      && |s.records| <= |nb|
      && (forall k :: 0 <= k < |s.records| ==> parse(nb[k]) == Some(s.records[k]))
      && (s.failure.None? ==> |s.records| == |nb|)
      && (s.failure.Some? ==>
            && |s.records| < |nb| && parse(nb[|s.records|]) == None
            && s.failure.value == MalformedJsonLine(nb[|s.records|]))
  {
    JsonlStreamIsDecodeEach(lines, parse);
    DecodeEachShape(NonBlank(lines), parse);
  }

  /** The number of lines whose stripped text is not empty. */
  function NonBlankLines(lines: seq<string>): (n: nat)
    ensures n <= |lines|
  {
    if lines == [] then 0 else (if Strip(lines[0]) != [] then 1 else 0) + NonBlankLines(lines[1..])
  }

  /** The reader a vendor's format selects. */
  datatype Reader = Delimited(delimiter: string) | Sheet(name: string) | JsonLines

  /** The reader choice of the ingest loop: csv with ",", pipe_delimited with
      the configured delimiter or "|", xlsx with the configured sheet (a
      KeyError without one), jsonl; any other format is a ValueError. */
  function SelectReader(cfg: VendorConfig): (r: Result<Reader, IngestError>)
    ensures r.Failure? <==>
      cfg.format !in {"csv", "pipe_delimited", "xlsx", "jsonl"} || (cfg.format == "xlsx" && cfg.sheet == None)
    ensures r.Failure? && cfg.format != "xlsx" ==> r.error == UnsupportedFormat(cfg.format)
    ensures cfg.format == "csv" ==> r == Success(Delimited(","))
    ensures cfg.format == "pipe_delimited" ==> r == Success(Delimited(cfg.delimiter.GetOr("|")))
  {
    if cfg.format == "csv" then Success(Delimited(","))
    else if cfg.format == "pipe_delimited" then Success(Delimited(cfg.delimiter.GetOr("|")))
    else if cfg.format == "xlsx" then
      (if cfg.sheet.Some? then Success(Sheet(cfg.sheet.value)) else Failure(MissingConfigKey("sheet")))
    else if cfg.format == "jsonl" then Success(JsonLines)
    else Failure(UnsupportedFormat(cfg.format))
  }

  /** The records a reader yields from a file. */
  function Read(reader: Reader, file: InputFile, parse: string -> Option<Value>): (s: Stream)
    ensures reader.Delimited? ==>
      && s.failure == None
      && |s.records| == |DictRecords(file.delimitedRows(reader.delimiter))|
    ensures reader.Sheet? ==> (s.failure.Some? <==> file.sheetRecords(reader.name).None?)
    ensures reader.Sheet? && s.failure.Some? ==> s.records == [] && s.failure.value == SheetNotFound(reader.name)
    ensures !reader.JsonLines? ==> forall i :: 0 <= i < |s.records| ==> s.records[i].Obj?
  {
    match reader
    case Delimited(d) =>
      var recs := DictRecords(file.delimitedRows(d));
      Stream(seq(|recs|, i requires 0 <= i < |recs| => Obj(CsvRecord(recs[i]))), None)
    case Sheet(name) =>
      (match file.sheetRecords(name)
       case None => Stream([], Some(SheetNotFound(name)))
       case Some(recs) => Stream(seq(|recs|, i requires 0 <= i < |recs| => Obj(recs[i])), None))
    case JsonLines => JsonlStream(file.lines, parse)
  }
}
