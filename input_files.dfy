/**
 * The contents of the input directory as the readers see them. A file is
 * given by what each library reader would produce from it; the directory is
 * a map from file name to file, and a name the map lacks is a missing file.
 */
module InputFiles {
  import opened Wrappers
  import opened Values

  /** An openpyxl workbook: the cell values of each named sheet, row by row,
      and of the active sheet. */
  datatype Workbook = Workbook(sheets: map<string, seq<seq<Value>>>, active: seq<seq<Value>>)

  /** One input file:
      - its size, modification time (UTC ISO text) and SHA-256 hex digest;
      - delimitedRows(d): the rows csv.reader yields with delimiter d;
      - lines: the text lines;
      - workbook: the spreadsheet as openpyxl loads it;
      - sheetRecords(s): the records pandas.read_excel(sheet_name=s, dtype=str)
        yields, with missing cells as None, or None when the sheet does not
        exist. */
  datatype InputFile = InputFile(
    sizeBytes: nat,
    modifiedUtc: string,
    sha256: string,
    delimitedRows: string -> seq<seq<string>>,
    lines: seq<string>,
    workbook: Workbook,
    sheetRecords: string -> Option<seq<Record>>)

  /** The input directory: file name to file. */
  type InputDir = map<string, InputFile>
}
