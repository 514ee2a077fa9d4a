/**
 * The staging manifest: one entry per expected input file, with the file's
 * metadata, its data-row count under the counting rule of its format, and
 * whether it is usable (success) or not (failed, with the reason).
 */
module Manifest {
  import opened Wrappers
  import opened Text
  import opened Values
  import opened InputFiles
  import opened Readers

  // ---------------------------------------------------------------------
  // The expected inputs
  // ---------------------------------------------------------------------

  /** One expected input file: its vendor, name, format and the options its
      row counter reads. */
  datatype ExpectedInput = ExpectedInput(
    sourceVendor: string,
    fileName: string,
    format: string,
    delimiter: Option<string>,
    hasHeader: Option<bool>,
    sheetName: Option<string>)

  /** EXPECTED_INPUTS, in order. */
  const ExpectedInputs: seq<ExpectedInput> := [
    ExpectedInput("dental", "dental_provider.xlsx", "xlsx", None, None, Some("eligibility")),
    ExpectedInput("vision", "vision_provider.csv", "csv", Some(","), Some(true), None),
    ExpectedInput("medical_a", "medical_provider_a.csv", "csv", Some(","), Some(true), None),
    ExpectedInput("medical_b", "medical_provider_b.txt", "txt", Some("|"), Some(true), None),
    ExpectedInput("medical_c", "medical_provider_c.jsonl", "jsonl", None, None, None)
  ]

  // ---------------------------------------------------------------------
  // Row counting
  // ---------------------------------------------------------------------

  /** The number of rows with at least one field. */
  function CountNonEmpty(rows: seq<seq<string>>): (n: nat)
    ensures n <= |rows|
  {
    if rows == [] then 0 else (if rows[0] != [] then 1 else 0) + CountNonEmpty(rows[1..])
  }

  lemma {:induction false} CountNonEmptyAppend(rows: seq<seq<string>>, row: seq<string>)
    ensures CountNonEmpty(rows + [row]) == CountNonEmpty(rows) + (if row != [] then 1 else 0)
  {
    if rows != [] {
      assert (rows + [row])[1..] == rows[1..] + [row];
      CountNonEmptyAppend(rows[1..], row);
    }
  }

  /** The CSV/TXT data-row count: the non-empty rows, leaving out the row at
      position 1 when the file has a header. */
  function CsvLikeCount(rows: seq<seq<string>>, hasHeader: bool): (n: nat)
    ensures n <= |rows|
    ensures hasHeader && rows != [] ==> n < |rows|
  {
    if hasHeader && rows != [] then CountNonEmpty(rows[1..]) else CountNonEmpty(rows)
  }

  /** count_rows_csv_like over the rows csv.reader yields: blank rows are
      skipped, and so is the first row when there is a header. */
  method CountRowsCsvLike(rows: seq<seq<string>>, hasHeader: bool) returns (count: nat)
    ensures count == CsvLikeCount(rows, hasHeader)
  {
    count := 0;
    var i := 1;
    while i <= |rows|
      invariant 1 <= i <= |rows| + 1
      invariant count == CsvLikeCount(rows[..i - 1], hasHeader)
    {
      var row := rows[i - 1];
      assert rows[..i] == rows[..i - 1] + [row];
      if hasHeader && i > 1 {
        assert rows[..i][1..] == rows[..i - 1][1..] + [row];
        CountNonEmptyAppend(rows[..i - 1][1..], row);
      } else if !hasHeader {
        CountNonEmptyAppend(rows[..i - 1], row);
      }
      i := i + 1;
      if row == [] {
        continue;
      }
      if hasHeader && i - 1 == 1 {
        continue;
      }
      count := count + 1;
    }
    assert rows[..|rows|] == rows;
  }

  /** The header is found by position: with a blank first row, the real
      header row is counted as data; otherwise the first row is the one left
      out. */
  lemma CsvLikeHeaderByPosition(rows: seq<seq<string>>)
    requires rows != []
    ensures rows[0] == [] ==> CsvLikeCount(rows, true) == CountNonEmpty(rows)
    ensures rows[0] != [] ==> CsvLikeCount(rows, true) == CountNonEmpty(rows) - 1
  {
  }

  lemma {:induction false} DataRecordsCount(header: seq<string>, rows: seq<seq<string>>)
    ensures |DataRecords(header, rows)| == CountNonEmpty(rows)
  {
    if rows != [] {
      DataRecordsCount(header, rows[1..]);
    }
  }

  /** The manifest's count of a file with a header is the number of records
      csv.DictReader yields from it in the raw-ingest stage. */
  lemma DictRecordsMatchCount(rows: seq<seq<string>>)
    ensures |DictRecords(rows)| == CsvLikeCount(rows, true)
  {
    if rows != [] {
      DataRecordsCount(rows[0], rows[1..]);
    }
  }

  lemma {:induction false} NonBlankLinesAppend(lines: seq<string>, line: string)
    ensures NonBlankLines(lines + [line]) == NonBlankLines(lines) + (if Strip(line) != [] then 1 else 0)
  {
    if lines != [] {
      assert (lines + [line])[1..] == lines[1..] + [line];
      NonBlankLinesAppend(lines[1..], line);
    }
  }

  lemma NonBlankLinesPrefix(lines: seq<string>, i: nat)
    requires i < |lines|
    ensures NonBlankLines(lines[..i + 1]) == NonBlankLines(lines[..i]) + (if Strip(lines[i]) != [] then 1 else 0)
  {
    assert lines[..i + 1] == lines[..i] + [lines[i]];
    NonBlankLinesAppend(lines[..i], lines[i]);
  }

  /** count_rows_jsonl: the lines whose stripped text is not empty, the same
      lines the raw-ingest stage decodes. */
  method CountRowsJsonl(lines: seq<string>) returns (count: nat)
    ensures count == NonBlankLines(lines)
  {
    count := 0;
    var i := 0;
    while i < |lines|
      invariant 0 <= i <= |lines|
      invariant count == NonBlankLines(lines[..i])
    {
      NonBlankLinesPrefix(lines, i);
      if Strip(lines[i]) != [] {
        count := count + 1;
      }
      i := i + 1;
    }
    assert lines[..|lines|] == lines;
  }

  /** A cell that is neither None nor blank once str() and strip() are
      applied. */
  predicate NonBlankCell(v: Value)
  {
    !v.Null? && Strip(AsText(v)) != []
  }

  predicate HasNonBlankCell(row: seq<Value>)
  {
    exists j :: 0 <= j < |row| && NonBlankCell(row[j])
  }

  /** The number of rows with a non-blank cell. */
  function CountWithValues(rows: seq<seq<Value>>): (n: nat)
    ensures n <= |rows|
  {
    if rows == [] then 0 else (if HasNonBlankCell(rows[0]) then 1 else 0) + CountWithValues(rows[1..])
  }

  lemma {:induction false} CountWithValuesAppend(rows: seq<seq<Value>>, row: seq<Value>)
    ensures CountWithValues(rows + [row]) == CountWithValues(rows) + (if HasNonBlankCell(row) then 1 else 0)
  {
    if rows != [] {
      assert (rows + [row])[1..] == rows[1..] + [row];
      CountWithValuesAppend(rows[1..], row);
    }
  }

  lemma CountWithValuesPrefix(rows: seq<seq<Value>>, i: nat)
    requires 1 <= i < |rows|
    ensures CountWithValues(rows[1..i + 1]) == CountWithValues(rows[1..i]) + (if HasNonBlankCell(rows[i]) then 1 else 0)
  {
    assert rows[1..i + 1] == rows[1..i] + [rows[i]];
    CountWithValuesAppend(rows[1..i], rows[i]);
  }

  /** The sheet the counter reads: the named one when a non-empty name is
      given and the workbook has it, the active sheet otherwise. */
  function ChosenSheet(wb: Workbook, sheetName: Option<string>): seq<seq<Value>>
  {
    if sheetName.Some? && sheetName.value != [] && sheetName.value in wb.sheets then wb.sheets[sheetName.value] else wb.active
  }

  /** The spreadsheet data-row count: rows from the second on that hold a
      non-blank cell. */
  function XlsxCount(wb: Workbook, sheetName: Option<string>): (n: nat)
    ensures n == 0 || n < |ChosenSheet(wb, sheetName)|
  {
    var rows := ChosenSheet(wb, sheetName);
    if rows == [] then 0 else CountWithValues(rows[1..])
  }

  /** count_rows_xlsx: the first row is the header, and a row counts when
      any of its cells is non-blank. */
  method CountRowsXlsx(wb: Workbook, sheetName: Option<string>) returns (count: nat)
    ensures count == XlsxCount(wb, sheetName)
    ensures count < |ChosenSheet(wb, sheetName)| || count == 0
  {
    var rows;
    if sheetName.Some? && sheetName.value != [] && sheetName.value in wb.sheets {
      rows := wb.sheets[sheetName.value];
    } else {
      rows := wb.active;
    }
    assert rows == ChosenSheet(wb, sheetName);
    count := 0;
    var i := 1;
    while i < |rows|
      invariant rows != [] ==> 1 <= i <= |rows|
      invariant rows != [] ==> count == CountWithValues(rows[1..i])
      invariant rows == [] ==> count == 0
    {
      CountWithValuesPrefix(rows, i);
      if HasNonBlankCell(rows[i]) {
        count := count + 1;
      }
      i := i + 1;
    }
    if rows != [] {
      assert rows[1..i] == rows[1..];
    }
  }

  const UnsupportedFormatMessage := "Unsupported format for row counting: "

  /** count_rows_by_format: csv and txt use the CSV-like rule (delimiter ","
      and a header unless the input says otherwise), jsonl and xlsx their own
      rules, and any other format is an error naming it. */
  function CountByFormat(file: InputFile, fmt: string, input: ExpectedInput): (r: Result<nat, string>)
    ensures r.Failure? <==> fmt != "csv" && fmt != "txt" && fmt != "jsonl" && fmt != "xlsx"
    ensures r.Failure? ==> r.error == UnsupportedFormatMessage + fmt
    ensures fmt == "csv" || fmt == "txt" ==>
      r == Success(CsvLikeCount(file.delimitedRows(input.delimiter.GetOr(",")), input.hasHeader.GetOr(true)))
    ensures fmt == "jsonl" ==> r == Success(NonBlankLines(file.lines))
    ensures fmt == "xlsx" ==> r == Success(XlsxCount(file.workbook, input.sheetName))
  {
    if fmt == "csv" || fmt == "txt" then
      Success(CsvLikeCount(file.delimitedRows(input.delimiter.GetOr(",")), input.hasHeader.GetOr(true)))
    else if fmt == "jsonl" then Success(NonBlankLines(file.lines))
    else if fmt == "xlsx" then Success(XlsxCount(file.workbook, input.sheetName))
    else Failure(UnsupportedFormatMessage + fmt)
  }

  /** The dispatcher, running the counter of the format. */
  method CountRowsByFormat(file: InputFile, fmt: string, input: ExpectedInput) returns (r: Result<nat, string>)
    ensures r == CountByFormat(file, fmt, input)
  {
    if fmt == "csv" || fmt == "txt" {
      var n := CountRowsCsvLike(file.delimitedRows(input.delimiter.GetOr(",")), input.hasHeader.GetOr(true));
      return Success(n);
    }
    if fmt == "jsonl" {
      var n := CountRowsJsonl(file.lines);
      return Success(n);
    }
    if fmt == "xlsx" {
      var n := CountRowsXlsx(file.workbook, input.sheetName);
      return Success(n);
    }
    return Failure(UnsupportedFormatMessage + fmt);
  }

  /** Every expected input has a supported format. */
  lemma ExpectedFormatsSupported(file: InputFile)
    ensures forall i :: 0 <= i < |ExpectedInputs| ==> CountByFormat(file, ExpectedInputs[i].format, ExpectedInputs[i]).Success?
  {
  }

  // ---------------------------------------------------------------------
  // Manifest entries
  // ---------------------------------------------------------------------

  datatype EntryStatus = Succeeded | Failed

  /** ManifestFileEntry. */
  datatype ManifestFileEntry = ManifestFileEntry(
    sourceVendor: string,
    sourceFile: string,
    relativePath: string,
    sizeBytes: nat,
    modifiedTimeUtc: string,
    sha256: string,
    rowCountRead: nat,
    status: EntryStatus,
    error: Option<string>)

  /** StagingManifest. */
  datatype StagingManifest = StagingManifest(
    loadRunId: string,
    ingestedAtUtc: string,
    inputDir: string,
    files: seq<ManifestFileEntry>)

  const MissingFileMessage := "Missing expected input file: "
  const ZeroRowsMessage := "File has zero data rows: "

  /** The path of an input file as the error messages print it. */
  function InputPath(root: string, fileName: string): string
  {
    root + "/input/" + fileName
  }

  /** The entry of one expected input:
      - a missing file is failed, with no metadata;
      - a count error is failed, with the file's metadata;
      - with require_non_empty, a zero count is failed, with the metadata;
      - anything else succeeds with its count. */
  function Entry(root: string, dir: InputDir, input: ExpectedInput, requireNonEmpty: bool): (e: ManifestFileEntry)
    ensures e.sourceVendor == input.sourceVendor && e.sourceFile == input.fileName
    ensures e.relativePath == "input/" + input.fileName
    ensures e.status == Failed ==> e.rowCountRead == 0 && e.error.Some?
    ensures e.status == Succeeded ==> e.error == None
    ensures input.fileName !in dir ==>
      && e.status == Failed
      && e.error == Some(MissingFileMessage + InputPath(root, input.fileName))
      && e.sizeBytes == 0 && e.modifiedTimeUtc == "" && e.sha256 == ""
    ensures input.fileName in dir ==>
      var file := dir[input.fileName];
      var count := CountByFormat(file, input.format, input);
      && e.sizeBytes == file.sizeBytes && e.modifiedTimeUtc == file.modifiedUtc && e.sha256 == file.sha256
      && (e.status == Failed <==> count.Failure? || (requireNonEmpty && count.value == 0))
      && (count.Failure? ==> e.error == Some(count.error))
      && (count.Success? && requireNonEmpty && count.value == 0 ==>
            e.error == Some(ZeroRowsMessage + InputPath(root, input.fileName)))
      && (e.status == Succeeded ==> e.rowCountRead == count.value)
  {
    var path := InputPath(root, input.fileName);
    var relative := "input/" + input.fileName;
    if input.fileName !in dir then
      ManifestFileEntry(input.sourceVendor, input.fileName, relative, 0, "", "", 0, Failed, Some(MissingFileMessage + path))
    else
      var file := dir[input.fileName];
      match CountByFormat(file, input.format, input)
      case Failure(msg) =>
        ManifestFileEntry(input.sourceVendor, input.fileName, relative, file.sizeBytes, file.modifiedUtc, file.sha256,
          0, Failed, Some(msg))
      case Success(n) =>
        if requireNonEmpty && n == 0 then
          ManifestFileEntry(input.sourceVendor, input.fileName, relative, file.sizeBytes, file.modifiedUtc, file.sha256,
            0, Failed, Some(ZeroRowsMessage + path))
        else
          ManifestFileEntry(input.sourceVendor, input.fileName, relative, file.sizeBytes, file.modifiedUtc, file.sha256,
            n, Succeeded, None)
  }

  /** build_staging_manifest (without writing the JSON files): one entry per
      expected input, in order. */
  method BuildStagingManifest(root: string, dir: InputDir, loadRunId: string, ingestedAt: string, requireNonEmpty: bool)
    returns (m: StagingManifest)
    ensures m.loadRunId == loadRunId && m.ingestedAtUtc == ingestedAt && m.inputDir == "input"
    ensures |m.files| == |ExpectedInputs|
    ensures forall i :: 0 <= i < |ExpectedInputs| ==> m.files[i] == Entry(root, dir, ExpectedInputs[i], requireNonEmpty)
  {
    var entries: seq<ManifestFileEntry> := [];
    var k := 0;
    while k < |ExpectedInputs|
      invariant 0 <= k <= |ExpectedInputs|
      invariant |entries| == k
      invariant forall i :: 0 <= i < k ==> entries[i] == Entry(root, dir, ExpectedInputs[i], requireNonEmpty)
    {
      var input := ExpectedInputs[k];
      var entry := ReadEntry(root, dir, input, requireNonEmpty);
      entries := entries + [entry];
      k := k + 1;
    }
    m := StagingManifest(loadRunId, ingestedAt, "input", entries);
  }

  /** The body of the manifest loop for one input: the try block, and the
      except block recording the failure. */
  method ReadEntry(root: string, dir: InputDir, input: ExpectedInput, requireNonEmpty: bool) returns (e: ManifestFileEntry)
    ensures e == Entry(root, dir, input, requireNonEmpty)
  {
    var path := InputPath(root, input.fileName);
    var relative := "input/" + input.fileName;
    if input.fileName !in dir {
      return ManifestFileEntry(input.sourceVendor, input.fileName, relative, 0, "", "", 0, Failed,
        Some(MissingFileMessage + path));
    }
    var file := dir[input.fileName];
    var count := CountRowsByFormat(file, input.format, input);
    var failure: Option<string> := None;
    if count.Failure? {
      failure := Some(count.error);
    } else if requireNonEmpty && count.value == 0 {
      failure := Some(ZeroRowsMessage + path);
    }
    if failure.Some? {
      e := ManifestFileEntry(input.sourceVendor, input.fileName, relative, file.sizeBytes, file.modifiedUtc, file.sha256,
        0, Failed, failure);
    } else {
      e := ManifestFileEntry(input.sourceVendor, input.fileName, relative, file.sizeBytes, file.modifiedUtc, file.sha256,
        count.value, Succeeded, None);
    }
  }

  /** With no input files at all and require_non_empty off, every entry is
      failed with the missing-file message. */
  lemma AllMissingAllFailed(root: string, requireNonEmpty: bool)
    ensures forall i :: 0 <= i < |ExpectedInputs| ==>
      var e := Entry(root, map[], ExpectedInputs[i], requireNonEmpty);
      e.status == Failed && e.error.Some? && MissingFileMessage <= e.error.value
  {
  }

  /** A comma-separated file holding a header and two rows is counted as two
      rows and succeeds. */
  lemma HeaderAndTwoRowsExample(root: string, dir: InputDir)
    requires "medical_provider_a.csv" in dir
    requires dir["medical_provider_a.csv"].delimitedRows(",") == [["id", "name"], ["1", "John"], ["2", "Jane"]]
    ensures Entry(root, dir, ExpectedInputs[2], true).status == Succeeded
    ensures Entry(root, dir, ExpectedInputs[2], true).rowCountRead == 2
  {
    var rows: seq<seq<string>> := [["id", "name"], ["1", "John"], ["2", "Jane"]];
    assert rows[1..] == [["1", "John"], ["2", "Jane"]];
    assert CsvLikeCount(rows, true) == 2;
  }

  // ---------------------------------------------------------------------
  // Load run identifiers
  // ---------------------------------------------------------------------

  /** A UTC clock reading. */
  datatype UtcTime = UtcTime(year: nat, month: nat, day: nat, hour: nat, minute: nat, second: nat)

  predicate ValidTime(t: UtcTime)
  {
    1000 <= t.year <= 9999 && 1 <= t.month <= 12 && 1 <= t.day <= 31
    && t.hour < 24 && t.minute < 60 && t.second < 60
  }

  predicate IsHexDigit(c: char)
  {
    IsDigit(c) || 'a' <= c <= 'f'
  }

  /** generate_load_run_id: the time as YYYYMMDDTHHMMSSZ, an underscore and
      the first eight hex digits of a random UUID. */
  function LoadRunId(t: UtcTime, uuidHex: string): (id: string)
    requires ValidTime(t)
    requires |uuidHex| == 32 && forall i :: 0 <= i < 32 ==> IsHexDigit(uuidHex[i])
    ensures |id| == 25
    ensures id[8] == 'T' && id[15] == 'Z' && id[16] == '_'
    ensures forall i :: 0 <= i < 15 && i != 8 ==> IsDigit(id[i])
    ensures forall i :: 17 <= i < 25 ==> IsHexDigit(id[i])
  {
    PaddedDigits(t.year, 4) + PaddedDigits(t.month, 2) + PaddedDigits(t.day, 2) + "T"
      + PaddedDigits(t.hour, 2) + PaddedDigits(t.minute, 2) + PaddedDigits(t.second, 2) + "Z"
      + "_" + uuidHex[..8]
  }

  /** The identifier reads back as the time it was made at and the UUID's
      first eight hex digits. */
  lemma LoadRunIdReadBack(t: UtcTime, uuidHex: string)
    requires ValidTime(t)
    requires |uuidHex| == 32 && forall i :: 0 <= i < 32 ==> IsHexDigit(uuidHex[i])
    ensures var id := LoadRunId(t, uuidHex);
      && DigitsValue(id[..4]) == t.year && DigitsValue(id[4..6]) == t.month && DigitsValue(id[6..8]) == t.day
      && DigitsValue(id[9..11]) == t.hour && DigitsValue(id[11..13]) == t.minute && DigitsValue(id[13..15]) == t.second
      && id[17..] == uuidHex[..8]
  {
    var id := LoadRunId(t, uuidHex);
    assert id[..4] == PaddedDigits(t.year, 4);
    assert id[4..6] == PaddedDigits(t.month, 2);
    assert id[6..8] == PaddedDigits(t.day, 2);
    assert id[9..11] == PaddedDigits(t.hour, 2);
    assert id[11..13] == PaddedDigits(t.minute, 2);
    assert id[13..15] == PaddedDigits(t.second, 2);
    assert Pow10(2) == 100 && Pow10(4) == 10000;
    PaddedDigitsRoundTrip(t.year, 4);
    PaddedDigitsRoundTrip(t.month, 2);
    PaddedDigitsRoundTrip(t.day, 2);
    PaddedDigitsRoundTrip(t.hour, 2);
    PaddedDigitsRoundTrip(t.minute, 2);
    PaddedDigitsRoundTrip(t.second, 2);
  }
}
