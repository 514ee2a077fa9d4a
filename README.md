# Eligibility pipeline: a verified model of stages 0, 1 and 2

This project models the three core stages of an eligibility-file pipeline in Dafny:

- Stage 0, the staging manifest. It checks that each of the five expected
  vendor files (dental xlsx, vision csv, medical A csv, medical B
  pipe-delimited txt, medical C jsonl) is present. It counts each file's
  data rows by format, records one entry per file, and makes the
  `load_run_id` of the run.
- Stage 1, hybrid raw ingestion. For each vendor configuration it:
  - reads the vendor's file;
  - builds a canonical row from constants, path mappings, forced nulls,
    `join_ymd_to_string` derivations and an extra-payload blob;
  - stamps lineage (vendor, file, row number, run id, ingestion time);
  - hashes the content columns;
  - writes the canonical row to `raw_staging` and the original record to
    `raw_staging_payload`, in batches of 1000, then commits and returns the
    row count per vendor.
- Stage 2, silver cleaning. It loads the run's raw rows and normalizes:
  - names: lower-cased, non-alphanumerics removed;
  - dates of birth: parsed with a per-vendor format and re-emitted as
    `YYYY-MM-DD`, or null;
  - relationship codes: mapped per vendor, or `OTHER`.

  It stamps `cleaned_at`, emits the 17 silver columns and returns the row
  count.

Modules, one per concern:

- `Wrappers`, `Text`, `Values`: Option/Result, ASCII text helpers
  (strip, lower, zfill, decimal digits) and the JSON-like `Value` of a
  record field.
- `VendorConfigs`, `InputFiles`: the vendor YAML configuration and the
  contents of an input file as its readers see it.
- `Paths`: `get_by_path`, dotted-path lookup.
- `Canonical`: `join_ymd_to_string` and `build_canonical_row`.
- `ContentHash`: `compute_record_hash_raw`, with the SHA-256 digest as a
  parameter.
- `Readers`: the CSV, JSONL and Excel readers and the reader choice.
- `Ingest`: the class `Warehouse` holding the two staging tables, their
  batch buffers and the committed state, plus the per-vendor and per-run
  ingestion loops.
- `IngestProperties`: dual-write parity, lineage keys, counts, and "a run
  only appends".
- `SilverRules`: `clean_name`, relationship lookup, and a strptime-style
  date parser for `%Y`, `%m`, `%d`, `%%`, whitespace and literal
  characters.
- `SilverRun`: `run_stage2_cleaning` over an `array` of rows (the
  DataFrame), with its masked column assignments and per-vendor passes.
- `Manifest`: stage 0.

## Model

| member | source | states |
|---|---|---|
| Paths.SplitDots | src/pipeline/stage1_ingest_raw.py:42 | `path.split(".")` yields at least one part, and no part contains a dot |
| Paths.JoinSplit | src/pipeline/stage1_ingest_raw.py:42 | joining the parts of a split with dots gives back the path |
| Paths.SplitJoin | src/pipeline/stage1_ingest_raw.py:42 | splitting dot-free parts joined with dots gives back the parts |
| Paths.SplitOfDotFree | src/pipeline/stage1_ingest_raw.py:38-42 | a path without a dot splits into itself alone |
| Paths.SplitConcat | src/pipeline/stage1_ingest_raw.py:42 | the split of `a.b` is the split of `a` followed by the split of `b` |
| Paths.Walk | src/pipeline/stage1_ingest_raw.py:41-46 | the walk over the split parts; its laws are `WalkOfNull` and `WalkAppend` |
| Paths.Lookup | src/pipeline/stage1_ingest_raw.py:30-46 | `get_by_path` as a function: None on None, a plain key on a dict, otherwise the walk; its laws are `LookupNoneCases`, `LookupIsWalk` and `LookupChain` |
| Paths.LookupNoneCases | src/pipeline/stage1_ingest_raw.py:36-39 | lookup on None gives None; lookup on a non-dict gives None; a missing plain key gives None |
| Paths.LookupIsWalk | src/pipeline/stage1_ingest_raw.py:38-46 | a plain key and a dotted path are both the walk over the split parts |
| Paths.WalkOfNull | src/pipeline/stage1_ingest_raw.py:42-45 | once the walk reaches a non-dict, it yields None |
| Paths.WalkAppend | src/pipeline/stage1_ingest_raw.py:41-46 | walking a concatenation of parts is walking the first parts, then the rest |
| Paths.LookupChain | src/pipeline/stage1_ingest_raw.py:41-46 | looking up `a.b` equals looking up `b` in the result of looking up `a`, so a missing or non-dict intermediate gives None |
| Paths.GetByPath | src/pipeline/stage1_ingest_raw.py:30-46 | the loop over the parts returns the lookup of the path, and never fails |
| Canonical.JoinYmd | src/pipeline/stage1_ingest_raw.py:49-62 | the result is null if and only if year, month or day is null; otherwise it is a string of at least 10 characters |
| Canonical.JoinYmdOfNumbers | src/pipeline/stage1_ingest_raw.py:57-60 | numbers within width give the year zero-padded to 4 digits, month and day each to 2, joined by '-' |
| Canonical.JoinYmdLayout | src/pipeline/stage1_ingest_raw.py:57-60 | for numbers within width the string is 10 characters with '-' at 4 and 7 and reads back as the year, month and day (no calendar check) |
| Canonical.JoinYmdKeepsWideParts | src/pipeline/stage1_ingest_raw.py:57-60 | parts longer than their width are kept unchanged (`"12345-123-07"`) |
| Canonical.JoinYmdSignedAndText | src/pipeline/stage1_ingest_raw.py:57-60 | a sign stays in front of the zero padding and text parts are padded as they are (`-5`, `"3"`, `"x"` give `"-005-03-0x"`) |
| Canonical.ZFillNatText | src/pipeline/stage1_ingest_raw.py:57-59 | zfill of a number's decimal text is its zero-padded digits |
| Canonical.CanonicalContent | src/pipeline/stage1_ingest_raw.py:105-134 | the five steps composed in order; its keys are given by `CanonicalKeys` and its values by `CanonicalPrecedence` |
| Canonical.Canonicalize | src/pipeline/stage1_ingest_raw.py:96-134 | `build_canonical_row`: the canonical content, or the error of an incomplete join derivation; `CanonicalizeOutcome` states when it fails |
| Canonical.CanonicalizeOutcome | src/pipeline/stage1_ingest_raw.py:119-126 | the canonical row succeeds if and only if every join derivation names year, month and day; otherwise the error is the malformed-derivation `KeyError` |
| Canonical.CanonicalKeys | src/pipeline/stage1_ingest_raw.py:105-134 | the canonical row's keys are exactly the keys of constants, mapping, nulls and join derivations, plus `extra_payload` if and only if the list is non-empty; the blob holds exactly the listed paths |
| Canonical.CanonicalPrecedence | src/pipeline/stage1_ingest_raw.py:107-126 | a join derivation beats nulls, nulls beat mapping, mapping beats constants, each key taking the value of the strongest step that names it |
| Canonical.OtherDerivationsIgnored | src/pipeline/stage1_ingest_raw.py:121-122 | adding a derivation of any other type leaves the canonical row unchanged |
| Canonical.ApplyConstants | src/pipeline/stage1_ingest_raw.py:107-109 | the loop copies exactly the constants |
| Canonical.ApplyMapping | src/pipeline/stage1_ingest_raw.py:111-113 | the loop sets each mapped column to the path lookup in the raw record, over the earlier row |
| Canonical.ApplyNulls | src/pipeline/stage1_ingest_raw.py:115-117 | the loop sets each nulls key to null, over the earlier row |
| Canonical.DeriveOne | src/pipeline/stage1_ingest_raw.py:121-126 | other derivation types yield nothing; a join derivation missing year, month or day is an error (the source's `KeyError`); otherwise it yields the joined date |
| Canonical.ApplyDerivations | src/pipeline/stage1_ingest_raw.py:119-126 | the loop applies every join derivation, or fails when one lacks a part |
| Canonical.AllDerived | src/pipeline/stage1_ingest_raw.py:119-126 | a map holding exactly the join targets, each with its joined date, is the derivation step's map |
| Canonical.ApplyExtraPayload | src/pipeline/stage1_ingest_raw.py:128-132 | when the list is non-empty, the loop stores a blob of exactly the listed paths and their lookups |
| Canonical.BuildCanonicalRow | src/pipeline/stage1_ingest_raw.py:96-134 | the step-by-step build equals the canonical row of the record |
| ContentHash.BelowIrreflexive | src/pipeline/stage1_ingest_raw.py:152 | the key order used by `sort_keys` is irreflexive |
| ContentHash.BelowTransitive | src/pipeline/stage1_ingest_raw.py:152 | the key order is transitive |
| ContentHash.BelowTotal | src/pipeline/stage1_ingest_raw.py:152 | the key order is total |
| ContentHash.Insert | src/pipeline/stage1_ingest_raw.py:152 | inserting a key keeps the keys strictly sorted and adds exactly that key |
| ContentHash.SortedKeys | src/pipeline/stage1_ingest_raw.py:152 | sorting yields strictly sorted keys with exactly the columns' members |
| ContentHash.SortedUnique | src/pipeline/stage1_ingest_raw.py:152 | two strictly sorted key lists with the same members are equal, so the serialised order does not depend on the column order |
| ContentHash.ContentColumns | src/pipeline/stage1_ingest_raw.py:138-150 | the content columns are exactly the table columns outside the seven lineage and hash columns |
| ContentHash.SortedContentShape | src/pipeline/stage1_ingest_raw.py:150-152 | the hashed entries are the content columns in sorted order, each paired with the row's value or null when the row lacks it |
| ContentHash.RecordHashRaw | src/pipeline/stage1_ingest_raw.py:138-153 | the digest of the sorted content entries; what it depends on is stated by `SortedContentShape` and the three `HashIgnores` lemmas |
| ContentHash.HashIgnoresLineage | src/pipeline/stage1_ingest_raw.py:138-153 | rows that differ only in excluded columns hash equal |
| ContentHash.HashIgnoresOtherKeys | src/pipeline/stage1_ingest_raw.py:145-153 | rows that differ only in keys that are not table columns hash equal |
| ContentHash.HashIgnoresColumnOrder | src/pipeline/stage1_ingest_raw.py:150-153 | reordering the table columns does not change the hash |
| Readers.DictRow | src/pipeline/stage1_ingest_raw.py:68-69 | a data row read against the header has exactly the header's names as keys (no restkey entry, see Left out) |
| Readers.DictRowField | src/pipeline/stage1_ingest_raw.py:68-69 | a header name takes the field at its last position, or None when the row is short |
| Readers.DataRecords | src/pipeline/stage1_ingest_raw.py:68-69 | no more records than rows, each keyed by exactly the header's names |
| Readers.DictRecords | src/pipeline/stage1_ingest_raw.py:66-71 | the first row is the header; no more records than rows, each keyed by exactly the header's names |
| Readers.CsvRecord | src/pipeline/stage1_ingest_raw.py:71 | the record keeps the row's keys |
| Readers.CsvRecordEmptyToNull | src/pipeline/stage1_ingest_raw.py:71 | a field becomes null if and only if it is "" or absent; other text is kept unchanged |
| Readers.JsonlStream | src/pipeline/stage1_ingest_raw.py:74-80 | no more records than lines; `JsonlStreamShape` pins the records and the error down |
| Readers.JsonlStreamComplete | src/pipeline/stage1_ingest_raw.py:74-80 | when every non-blank line parses, there is no failure and one record per non-blank line |
| Readers.NonBlank | src/pipeline/stage1_ingest_raw.py:76-79 | the stripped non-blank lines, none empty, as many as `NonBlankLines` counts |
| Readers.DecodeEach | src/pipeline/stage1_ingest_raw.py:79-80 | decoding stops at the first failure and yields no more records than lines |
| Readers.JsonlStreamIsDecodeEach | src/pipeline/stage1_ingest_raw.py:74-80 | reading JSON Lines is decoding the stripped non-blank lines in order |
| Readers.DecodeEachShape | src/pipeline/stage1_ingest_raw.py:79-80 | record k is the decoding of line k; with no error every line gave a record; an error names the first line that does not decode, right after the records before it |
| Readers.JsonlStreamShape | src/pipeline/stage1_ingest_raw.py:74-80 | record k is the decoding of the k-th non-blank line; with no error there is one record per non-blank line; a `json.loads` error names the first non-blank line that fails, after the records before it |
| Readers.NonBlankLines | src/pipeline/stage1_ingest_raw.py:76-79 | the non-blank line count never exceeds the line count |
| Readers.SelectReader | src/pipeline/stage1_ingest_raw.py:207-217 | csv reads with ','; pipe_delimited reads with the configured delimiter or '\|'; an unknown format is an error naming it |
| Readers.Read | src/pipeline/stage1_ingest_raw.py:66-87 | the delimited reader never fails and yields one object per DictReader record; the sheet reader fails exactly when the sheet is missing, then with no records; non-JSON records are objects |
| Ingest.Project | src/pipeline/stage1_ingest_raw.py:264-265 | the stored row has exactly the table's columns, each with the record's value or null |
| Ingest.PairOf | src/pipeline/stage1_ingest_raw.py:240-262 | the raw row and payload row of one record; their contents are stated by `PairRawShape` and `PairPayloadShape` |
| Ingest.Rows | src/pipeline/stage1_ingest_raw.py:240-266 | one outcome per record read, the record at index i being row i + 1 |
| Ingest.Collect | src/pipeline/stage1_ingest_raw.py:240-266 | the loop yields no more pairs than rows remain; `CollectShape` gives the pairs themselves |
| Ingest.CollectShape | src/pipeline/stage1_ingest_raw.py:240-266 | pair k is the result of row k; with no failure there is one pair per row; a failure is the error of the first failing row, right after the pairs before it |
| Ingest.VendorRun | src/pipeline/stage1_ingest_raw.py:203-279 | one vendor: the missing-file and reader errors, then the row loop over the records read, then a reader error raised after them; `VendorRunCount` gives its count |
| Ingest.VendorRunCount | src/pipeline/stage1_ingest_raw.py:240-279 | a vendor that completes read its file with its format's reader, and has exactly one pair per record read, pair k being the rows of record k + 1: `cnt` is the number of records |
| Ingest.Flushed | src/pipeline/stage1_ingest_raw.py:268-272 | the rows flushed inside the loop are a multiple of 1000, and fewer than 1000 stay buffered |
| Ingest.Warehouse.constructor | src/pipeline/stage1_ingest_raw.py:188-195 | an open connection over the existing tables, with empty buffers |
| Ingest.Warehouse.StartVendor | src/pipeline/stage1_ingest_raw.py:234-236 | empty buffers and a zero count; the tables are unchanged |
| Ingest.Warehouse.Append | src/pipeline/stage1_ingest_raw.py:264-272 | both buffers grow by one row each and stay equal in length; at each multiple of 1000 they are written and cleared; nothing is committed |
| Ingest.Warehouse.FlushRemainder | src/pipeline/stage1_ingest_raw.py:274-276 | the remaining buffered rows are written to both tables |
| Ingest.Warehouse.Commit | src/pipeline/stage1_ingest_raw.py:278 | the committed state becomes the written tables |
| Ingest.Warehouse.Close | src/pipeline/stage1_ingest_raw.py:283-284 | uncommitted writes are rolled back; the buffers and the counter are unchanged |
| Ingest.Warehouse.AppendRecord | src/pipeline/stage1_ingest_raw.py:240-272 | one pass of the row loop: a failing record stops the vendor with the rows so far written; otherwise its pair is staged |
| Ingest.Warehouse.AppendRecords | src/pipeline/stage1_ingest_raw.py:240-276 | after the row loop and the remainder flush, the tables hold exactly the pairs the loop collects; the failure is the loop's |
| Ingest.Warehouse.IngestVendor | src/pipeline/stage1_ingest_raw.py:203-279 | one vendor: succeeds if and only if `VendorRun` has no failure; on success it returns the number of the vendor's pairs (the number of records read, by `VendorRunCount`), commits, and both tables gain exactly the vendor's rows; on failure only the flushed batches stay, uncommitted |
| Ingest.CollectStep | src/pipeline/stage1_ingest_raw.py:240-266 | a failing row ends the loop with its error; a good row is prepended to the rest |
| Ingest.PairsAppend | src/pipeline/stage1_ingest_raw.py:264-265 | appending a pair appends its raw row and its payload row |
| Ingest.FlushedPrefix | src/pipeline/stage1_ingest_raw.py:268-272 | when the buffer holds the count modulo 1000, the table holds exactly the flushed prefix of the rows |
| Ingest.RunFrom | src/pipeline/stage1_ingest_raw.py:197-281 | the run from one vendor on: each vendor's rows committed and counted under its name, the first failure ending the run; stated by `RunStep`, `RunOnlyAppends`, `RunTotal` and `RunCounts` |
| Ingest.RunStep | src/pipeline/stage1_ingest_raw.py:197-279 | the run is the first vendor's outcome followed by the rest of the run |
| Ingest.IngestRun | src/pipeline/stage1_ingest_raw.py:191-284 | the loop over vendor configurations yields the counts and tables of the run definition, committed per vendor |
| IngestProperties.PairRawShape | src/pipeline/stage1_ingest_raw.py:243-251 | the raw row carries the run id, vendor, file, row number and hash; its content columns hold the canonical values |
| IngestProperties.PairPayloadShape | src/pipeline/stage1_ingest_raw.py:254-262 | the payload row carries the same key and hash as the raw row, and the record as read |
| IngestProperties.RowHashIgnoresLineage | src/pipeline/stage1_ingest_raw.py:243-251 | the same canonical row hashes alike whatever its vendor, file, row number, run or time |
| IngestProperties.RowAtKeyed | src/pipeline/stage1_ingest_raw.py:240-262 | the pair of the record at index k is numbered k + 1, carries the run id, and its two rows share key and hash |
| IngestProperties.RowsKeyed | src/pipeline/stage1_ingest_raw.py:240-262 | every good row is numbered by its position from 1 |
| IngestProperties.CollectKeyed | src/pipeline/stage1_ingest_raw.py:240-266 | the pairs the loop keeps are numbered consecutively |
| IngestProperties.MatchCountKeyed | tests/test_stage1_hybrid.py:65-91 | each raw row of a vendor joins exactly one payload row, on key and on key plus hash |
| IngestProperties.JoinCountKeyed | tests/test_stage1_hybrid.py:65-91 | the join count of consecutively numbered pairs is their number |
| IngestProperties.VendorJoinCount | src/pipeline/stage1_ingest_raw.py:240-279 | for a vendor, raw rows = payload rows = key join count = hash-match count = rows ingested |
| IngestProperties.VendorFailsEarly | src/pipeline/stage1_ingest_raw.py:203-217 | a missing file or an unsupported format fails the vendor before any row is buffered |
| IngestProperties.RunOnlyAppends | src/pipeline/stage1_ingest_raw.py:191-284 | earlier table contents stay in place whether the run succeeds or fails |
| IngestProperties.RunTotal | tests/test_stage1_hybrid.py:62-63 | after a successful run, each table grew by the total rows of all vendors |
| IngestProperties.RunCounts | src/pipeline/stage1_ingest_raw.py:279-281 | with distinct vendors, the returned map gives each vendor its row count |
| IngestProperties.RunKeepsCount | src/pipeline/stage1_ingest_raw.py:279 | a count already in the map is kept by later vendors with other names |
| Text.Strip | src/pipeline/stage2_clean_silver.py:45 | the result is no longer than the input, and neither starts nor ends with whitespace |
| Text.StripIdempotent | src/pipeline/stage2_clean_silver.py:95 | stripping twice is stripping once |
| Text.StripIgnoresPadding | src/pipeline/stage2_clean_silver.py:95 | surrounding whitespace does not change the stripped text |
| Text.Lower | src/pipeline/stage2_clean_silver.py:43 | same length, each character lowered |
| Text.ZFill | src/pipeline/stage1_ingest_raw.py:57-59 | the result has the width or the text's length, whichever is larger; wide text is unchanged; narrower text is zeros followed by the text, and a leading '+' or '-' stays in front of the zeros |
| Text.NatText | src/pipeline/stage1_ingest_raw.py:57 | `str` of a number is digits with no leading zero |
| Text.NatTextRoundTrip | src/pipeline/stage1_ingest_raw.py:57 | the decimal text of a number reads back as the number |
| Text.PaddedDigitsRoundTrip | src/pipeline/stage0_manifest.py:90 | zero-padded digits of a number within width read back as the number |
| SilverRules.KeepLowerAlnum | src/pipeline/stage2_clean_silver.py:44 | the result holds only `[a-z0-9]` |
| SilverRules.KeepLowerAlnumExact | src/pipeline/stage2_clean_silver.py:44 | the filter is the identity exactly on text of `[a-z0-9]` |
| SilverRules.KeepLowerAlnumSingle | src/pipeline/stage2_clean_silver.py:44 | one character is kept if it is in `[a-z0-9]` and deleted otherwise; with `KeepLowerAlnumAppend` this fixes the filter on every text |
| SilverRules.KeepLowerAlnumAppend | src/pipeline/stage2_clean_silver.py:44 | filtering a concatenation is concatenating the filtered parts |
| SilverRules.CleanName | src/pipeline/stage2_clean_silver.py:36-46 | the cleaned name holds only `[a-z0-9]` |
| SilverRules.CleanNameStripIsNoop | src/pipeline/stage2_clean_silver.py:41-46 | the final strip changes nothing |
| SilverRules.CleanNameOfClean | src/pipeline/stage2_clean_silver.py:36-46 | a name already of `[a-z0-9]` is kept |
| SilverRules.CleanNameIdempotent | src/pipeline/stage2_clean_silver.py:36-46 | cleaning twice is cleaning once |
| SilverRules.CleanNameOfNone | src/pipeline/stage2_clean_silver.py:42-46 | None becomes "None" and cleans to "none" |
| SilverRules.CleanNameExample | src/pipeline/stage2_clean_silver.py:36-46 | "O'Brien " cleans to "obrien" |
| SilverRules.RelationshipKey | src/pipeline/stage2_clean_silver.py:95 | the lookup key has no surrounding whitespace and no upper-case letter |
| SilverRules.NormalizeRelationship | src/pipeline/stage2_clean_silver.py:90-97 | `OTHER` when the vendor has no map; otherwise the map's value for the lowered, stripped code, or `OTHER` |
| SilverRules.RelationshipVocabulary | src/pipeline/stage2_clean_silver.py:90-97 | the result is `OTHER` or a value of the map of the row's own vendor |
| SilverRules.RelationshipKeyIgnoresCaseAndPadding | src/pipeline/stage2_clean_silver.py:95 | a code with surrounding whitespace gives the same lookup key as its lower-case form |
| SilverRules.RelationshipByKey | src/pipeline/stage2_clean_silver.py:91-97 | rows of the same vendor whose codes agree after lower and strip normalize identically |
| SilverRules.CompileDirectives | src/pipeline/stage2_clean_silver.py:85 | the format's directives, one per `%` directive, run of whitespace or other character; an unmodelled directive gives none |
| SilverRules.FieldRepeatedIff | src/pipeline/stage2_clean_silver.py:85 | the repeat check finds a repeat if and only if two positions hold the same field directive |
| SilverRules.CompileFormat | src/pipeline/stage2_clean_silver.py:85 | a compiled format is the directive list and never uses a field directive twice; a list that compiles but is rejected has a repeated field |
| SilverRules.RepeatedYearRejected | src/pipeline/stage2_clean_silver.py:85 | `%Y-%Y` does not compile |
| SilverRules.MatchFront | src/pipeline/stage2_clean_silver.py:85 | a format match consumes no more than the text |
| SilverRules.ParseDate | src/pipeline/stage2_clean_silver.py:85 | a parsed date is a valid calendar date inside the timestamp range, from a match that consumes the whole text |
| SilverRules.IsoDateText | src/pipeline/stage2_clean_silver.py:86 | `%Y-%m-%d` text is ten characters, digits with '-' at 4 and 7 |
| SilverRules.IsoDateTextRoundTrip | src/pipeline/stage2_clean_silver.py:86 | the emitted text reads back as the year, month and day |
| SilverRules.DobValue | src/pipeline/stage2_clean_silver.py:83-86 | the result is null or a `YYYY-MM-DD` shaped string |
| SilverRules.DobValueCases | src/pipeline/stage2_clean_silver.py:83-86 | null if and only if the stripped text is empty, a NaT spelling, or does not parse under the format; otherwise the parsed date as `YYYY-MM-DD` |
| SilverRules.NormalizeDob | src/pipeline/stage2_clean_silver.py:77-86 | null unless the row's vendor has a format; otherwise the raw value parsed with that format |
| SilverRules.CompileMonthDayYear | src/pipeline/stage2_clean_silver.py:85 | `%m/%d/%Y` compiles to month, '/', day, '/', year |
| SilverRules.MonthDayYearRoundTrip | src/pipeline/stage2_clean_silver.py:85-86 | every valid date written as `MM/DD/YYYY` parses back to itself |
| SilverRules.MonthDayYearRejectsWideMonth | src/pipeline/stage2_clean_silver.py:84-85 | text starting with a two-digit number over 12 does not match `%m/%d/%Y` |
| SilverRules.DobValueMonthDayYear | src/pipeline/stage2_clean_silver.py:83-86 | under `%m/%d/%Y`, dob_norm is the parsed date as `YYYY-MM-DD`, or null |
| SilverRules.MonthDayYearExample | src/pipeline/stage2_clean_silver.py:83-86 | "01/15/1990" parses to 1990-01-15 and is emitted as "1990-01-15" |
| SilverRules.MonthDayYearRejects | src/pipeline/stage2_clean_silver.py:84-85 | "13/45/1990" and "99/99/9999" do not parse, so they become null |
| SilverRun.LoadNormalizationConfig | src/pipeline/stage2_clean_silver.py:16-33 | a missing or unparsable file, or an empty document, gives the empty config; otherwise the document's two sections, each defaulting to empty |
| SilverRun.RowsOfRun | src/pipeline/stage2_clean_silver.py:64-65 | the rows read are exactly the table's rows with the run id, each as many times as the table holds it, and no other rows |
| SilverRun.SilverRow | src/pipeline/stage2_clean_silver.py:72-108 | the silver row of a raw row; its columns are stated by `SilverRowColumns` and `SilverRowVocabulary` |
| SilverRun.SilverRowColumns | src/pipeline/stage2_clean_silver.py:72-108 | each silver column of a row: the lineage and raw columns as read, the cleaned names, the vendor's dob and relationship rules, and the cleaning time |
| SilverRun.SilverRowVocabulary | src/pipeline/stage2_clean_silver.py:72-97 | names hold only `[a-z0-9]`; dob_norm is null or `YYYY-MM-DD` shaped; relationship_norm is `OTHER` or a value of the map of the row's own vendor |
| SilverRun.EmptyConfigDefaults | src/pipeline/stage2_clean_silver.py:16-33 | with a missing, unparsable or empty config every row gets null dob_norm and `OTHER` |
| SilverRun.NormalizeDobReads | src/pipeline/stage2_clean_silver.py:77-86 | dob_norm depends only on the row's vendor and dob_raw |
| SilverRun.AssignWhere | src/pipeline/stage2_clean_silver.py:79-86 | a masked column assignment sets the column on exactly the masked rows, from each row's own values, and leaves other rows unchanged |
| SilverRun.ApplyColumn | src/pipeline/stage2_clean_silver.py:72-73 | a whole-column assignment sets the column of every row from that row's input column |
| SilverRun.ByVendor | src/pipeline/stage2_clean_silver.py:77-97 | the value the per-vendor passes give a row; `ByVendorAdd`, `DobByVendor` and `RelationshipByVendor` state it |
| SilverRun.ByVendorAdd | src/pipeline/stage2_clean_silver.py:78-97 | one more vendor pass decides exactly the rows of that vendor |
| SilverRun.VendorPasses | src/pipeline/stage2_clean_silver.py:77-97 | default then one pass per configured vendor: each row gets its vendor's rule applied to its input column, or the default; nothing else changes |
| SilverRun.DobByVendor | src/pipeline/stage2_clean_silver.py:77-86 | the dob passes compute `NormalizeDob` |
| SilverRun.RelationshipByVendor | src/pipeline/stage2_clean_silver.py:90-97 | the relationship passes compute `NormalizeRelationship` |
| SilverRun.NormalizeRows | src/pipeline/stage2_clean_silver.py:72-100 | after the passes each row is its normalized row |
| SilverRun.CleanRows | src/pipeline/stage2_clean_silver.py:72-111 | one silver row per DataFrame row, in order |
| SilverRun.RunStage2Cleaning | src/pipeline/stage2_clean_silver.py:49-114 | the count is the number of the run's raw rows (0 for an empty run), and silver row i is the silver row of raw row i |
| Manifest.CountNonEmpty | src/pipeline/stage0_manifest.py:120-126 | never more than the rows |
| Manifest.CsvLikeCount | src/pipeline/stage0_manifest.py:112-127 | never more than the rows, and fewer than the rows when there is a header |
| Manifest.CountRowsCsvLike | src/pipeline/stage0_manifest.py:112-127 | the 1-based loop skips blank rows and the first row when there is a header |
| Manifest.CsvLikeHeaderByPosition | src/pipeline/stage0_manifest.py:118-124 | the header is found by position: a blank first row means the real header is counted |
| Manifest.DictRecordsMatchCount | src/pipeline/stage0_manifest.py:112-127 | with a header, the count equals the number of records the stage-1 CSV reader yields |
| Manifest.CountRowsJsonl | src/pipeline/stage0_manifest.py:130-137 | the count is the number of lines whose stripped text is non-empty |
| Manifest.CountWithValues | src/pipeline/stage0_manifest.py:155-157 | never more than the rows |
| Manifest.ChosenSheet | src/pipeline/stage0_manifest.py:148-151 | the named sheet when a non-empty name is given and exists, else the active sheet |
| Manifest.XlsxCount | src/pipeline/stage0_manifest.py:140-160 | a non-zero count is below the chosen sheet's row count (the header is never counted) |
| Manifest.CountRowsXlsx | src/pipeline/stage0_manifest.py:140-160 | the count of rows from row 2 with a cell that is neither None nor blank; a non-zero count is below the sheet's row count |
| Manifest.CountByFormat | src/pipeline/stage0_manifest.py:163-175 | an error naming the format if and only if it is not csv, txt, jsonl or xlsx; csv and txt count with ',' and a header by default |
| Manifest.CountRowsByFormat | src/pipeline/stage0_manifest.py:163-175 | the dispatch method computes the format's count or error |
| Manifest.ExpectedFormatsSupported | src/pipeline/stage0_manifest.py:20-53 | every expected input has a format that can be counted |
| Manifest.Entry | src/pipeline/stage0_manifest.py:203-249 | missing: failed with the message and empty metadata; failed if and only if counting errs or require_non_empty meets zero rows; failed rows count 0 with an error; success has no error and the count |
| Manifest.ReadEntry | src/pipeline/stage0_manifest.py:203-249 | one pass of the loop yields the entry of that input |
| Manifest.BuildStagingManifest | src/pipeline/stage0_manifest.py:181-256 | one entry per expected input, in order, with the run id, time and input directory |
| Manifest.AllMissingAllFailed | tests/test_stage0_manifest.py:46-59 | with no files, every entry is failed with the missing-file message |
| Manifest.HeaderAndTwoRowsExample | tests/test_stage0_manifest.py:11-12 | a CSV of a header and two rows succeeds with row count 2 |
| Manifest.LoadRunId | src/pipeline/stage0_manifest.py:88-91 | 25 characters: `YYYYMMDDTHHMMSSZ`, '_' and 8 hex digits |
| Manifest.LoadRunIdReadBack | src/pipeline/stage0_manifest.py:88-91 | the identifier reads back as its time fields and the UUID's first 8 hex digits |

## Left out

- SQLite is not modelled: connections, PRAGMA, `executemany`, `commit`,
  `read_sql` and `to_sql`. The tables are sequences of records. Their
  column lists (`get_table_columns`) are parameters.
- `csv.reader`, `json.loads`, `pandas.read_excel`, openpyxl and
  `yaml.safe_load` are not modelled. An input file is the rows, lines,
  workbook and sheet records these would yield. The JSON parser is a
  parameter. `csv.DictReader` is modelled on top of the `csv.reader` rows.
- Readers.DictRow: DictReader's restkey entry is dropped. A row longer than
  the header also gets the key None holding the extra fields, and with a
  blank first line every field of every row goes there. That entry reaches
  `raw_payload_json`. Records here have string keys only.
- SHA-256 is a digest function passed as a parameter in the record hash.
  The file checksum of `compute_sha256` is a precomputed field of the input
  file. `json.dumps` is left abstract: the payload and the `extra_payload`
  blob hold the value they would encode.
- Floats and lists are not values here: a field is null, a boolean, an
  integer, a string or an object. A JSON Lines record or a YAML constant
  holding a float (`str(1990.0)` is `"1990.0"`) or a list is outside the
  model.
- Clocks, `uuid4` and time formatting are inputs. This covers
  `utc_now_iso`, `_utc_now_iso`, `datetime.now()` for `cleaned_at`, and the
  UUID hex of the run id.
- Writing the manifest JSON files and creating directories are not
  modelled. The input path is the root followed by `/input/` and the file
  name, with no path normalisation.
- The UTF-8 byte-order mark, text encodings, and Unicode `casefold` and
  `lower` are not modelled. Text is ASCII.
- Workbook load errors are not modelled, nor a missing active sheet.
- The YAML top level is assumed to be a mapping. A section that is present
  but null is treated as absent.
- A DataFrame column missing from the rows reads as null. pandas would
  raise `KeyError` there.
- Silver rows keep the order of the raw table. The SQL `SELECT` order and
  the append to `silver_members` are not modelled.
- `str()` of a nested object is a fixed placeholder, `"{...}"`.
- SilverRules.ParseDate: only `%Y`, `%m`, `%d`, `%%`, whitespace and
  literal characters are parsed. pandas' ISO fast path and inference are
  not modelled.
- SilverRules.CompileFormat: a format pandas cannot compile (another
  directive, or a field directive used twice) is not compiled, and the
  vendor's dates become null. pandas raises instead, `errors='coerce'`
  does not catch it, and the stage fails. The model does not carry that
  failure.
- Manifest.LoadRunId: only years 1000 through 9999 are covered, so the
  year is always four digits.
- Manifest.CountRowsXlsx: the sheet is a given grid of cells. openpyxl's
  read-only iteration and its handling of trailing empty rows are not
  modelled.
- `tests/test_stage2_silver.py` is not modelled. It re-implements the
  cleaning with other rules, which differ from
  `src/pipeline/stage2_clean_silver.py`.
- Orchestration and reporting scripts are not part of this model:
  `main.py`, `stage0_init_db.py`, `run_pipeline.py`, `pipeline.py`,
  `run_sql_checks.py`, `run_data_audit.py` and
  `Relationship_Matrix_Audit.py`.
