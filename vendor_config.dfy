/**
 * The per-vendor declarative configuration of the raw-ingest stage, as the
 * YAML loader hands it over, and the errors that end a vendor's ingestion.
 */
module VendorConfigs {
  import opened Wrappers
  import opened Values

  /** The only derivation type the canonicalizer acts on. */
  const JoinYmdKind: string := "join_ymd_to_string"

  /** One entry of `derivations`: its `type` and its three source paths; a
      key missing from the YAML entry is None here. */
  datatype Derivation = Derivation(kind: Option<string>, year: Option<string>, month: Option<string>, day: Option<string>)

  /** One vendor YAML: the required keys source_vendor, file and format, the
      optional reader options delimiter and sheet, and the five rule sets
      (an absent or empty rule set is the empty map, set or list). */
  datatype VendorConfig = VendorConfig(
    sourceVendor: string,
    file: string,
    format: string,
    delimiter: Option<string>,
    sheet: Option<string>,
    constants: map<string, Value>,
    mapping: map<string, string>,
    nulls: set<string>,
    derivations: map<string, Derivation>,
    extraPayload: seq<string>)

  /** The exceptions that abort ingestion: FileNotFoundError for a missing
      input, ValueError for an unknown format, KeyError for a missing
      configuration key (the spreadsheet's `sheet`, or a year/month/day path
      of a join derivation), the JSON decoder's error for a bad line, and the
      spreadsheet reader's error for an unknown sheet. */
  datatype IngestError =
    | MissingInputFile(vendor: string, file: string)
    | UnsupportedFormat(format: string)
    | MissingConfigKey(key: string)
    | MalformedDerivation
    | MalformedJsonLine(line: string)
    | SheetNotFound(sheet: string)
}
