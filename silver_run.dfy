/**
 * The silver stage run: load the normalization configuration, select the
 * raw_staging rows of one load run, fill the normalized columns column by
 * column over the rows, and project the silver_members columns.
 */
module SilverRun {
  import opened Wrappers
  import opened Values
  import opened Text
  import opened SilverRules

  /** What yaml.safe_load returned for the normalization file: each top-level
      key may be absent. */
  datatype ConfigDoc = ConfigDoc(
    relationshipMappings: Option<map<string, map<string, string>>>,
    dateFormats: Option<map<string, string>>)

  /** The normalization file as the loader finds it: absent, failing to
      parse, or parsed (None for an empty document). */
  datatype ConfigSource = Missing | Unparsable | Parsed(doc: Option<ConfigDoc>)

  /** The two rule maps the run uses: vendor to relationship mapping, vendor
      to date format. */
  datatype NormalizationConfig = NormalizationConfig(
    relMaps: map<string, map<string, string>>,
    dateFormats: map<string, string>)

  /** load_normalization_config followed by the two .get(..., {}) calls: a
      missing, unparsable or empty file gives no rules at all. */
  function LoadNormalizationConfig(src: ConfigSource): (c: NormalizationConfig)
    ensures src.Missing? || src.Unparsable? || src == Parsed(None) ==> c == NormalizationConfig(map[], map[])
    ensures src.Parsed? && src.doc.Some? ==>
      && c.relMaps == src.doc.value.relationshipMappings.GetOr(map[])
      && c.dateFormats == src.doc.value.dateFormats.GetOr(map[])
  {
    match src
    case Parsed(Some(doc)) => NormalizationConfig(doc.relationshipMappings.GetOr(map[]), doc.dateFormats.GetOr(map[]))
    case _ => NormalizationConfig(map[], map[])
  }

  /** SELECT * FROM raw_staging WHERE load_run_id = ?: the run's rows in
      table order. */
  function RowsOfRun(table: seq<Record>, loadRunId: string): (rows: seq<Record>)
    ensures |rows| <= |table|
    ensures forall r :: r in rows <==> r in table && Get(r, "load_run_id") == Str(loadRunId)
    ensures forall r :: multiset(rows)[r] == if Get(r, "load_run_id") == Str(loadRunId) then multiset(table)[r] else 0
  {
    if table == [] then []
    else
      var init, last := table[..|table| - 1], table[|table| - 1];
      assert table == init + [last];
      assert multiset(table) == multiset(init) + multiset{last};
      var keep := if Get(last, "load_run_id") == Str(loadRunId) then [last] else [];
      assert multiset(RowsOfRun(init, loadRunId) + keep) == multiset(RowsOfRun(init, loadRunId)) + multiset(keep);
      RowsOfRun(init, loadRunId) + keep
  }

  /** A silver_members row: the columns of silver_cols, in their order. */
  datatype SilverMember = SilverMember(
    loadRunId: Value, sourceVendor: Value, sourceFile: Value, sourceRow: Value, recordHashRaw: Value,
    firstNameNorm: Value, lastNameNorm: Value, dobNorm: Value, relationshipNorm: Value,
    planType: Value, provider: Value, firstNameRaw: Value, lastNameRaw: Value, dobRaw: Value,
    relationshipRaw: Value, ingestedAt: Value, cleanedAt: Value)

  /** A row with the five computed columns set to the given values. */
  function Extend(row: Record, first: Value, last: Value, dob: Value, rel: Value, cleanedAt: string): Record
  {
    row["first_name_norm" := first]["last_name_norm" := last]["dob_norm" := dob]
       ["relationship_norm" := rel]["cleaned_at" := Str(cleanedAt)]
  }

  /** clean_name as a column function. */
  function CleanNameValue(v: Value): Value
  {
    Str(CleanName(v))
  }

  /** A raw row with the five columns the run computes for it. */
  function Normalized(cfg: NormalizationConfig, row: Record, cleanedAt: string): Record
  {
    Extend(row,
      CleanNameValue(Get(row, "first_name_raw")),
      CleanNameValue(Get(row, "last_name_raw")),
      NormalizeDob(cfg.dateFormats, row),
      Str(NormalizeRelationship(cfg.relMaps, row)),
      cleanedAt)
  }

  /** df[silver_cols] of one row. */
  function SilverColumns(row: Record): SilverMember
  {
    SilverMember(
      Get(row, "load_run_id"), Get(row, "source_vendor"), Get(row, "source_file"),
      Get(row, "source_row"), Get(row, "record_hash_raw"),
      Get(row, "first_name_norm"), Get(row, "last_name_norm"), Get(row, "dob_norm"),
      Get(row, "relationship_norm"),
      Get(row, "plan_type"), Get(row, "provider"), Get(row, "first_name_raw"),
      Get(row, "last_name_raw"), Get(row, "dob_raw"), Get(row, "relationship_raw"),
      Get(row, "ingested_at"), Get(row, "cleaned_at"))
  }

  /** The silver row the run writes for a raw row. */
  function SilverRow(cfg: NormalizationConfig, row: Record, cleanedAt: string): SilverMember
  {
    SilverColumns(Normalized(cfg, row, cleanedAt))
  }

  /** The silver columns of an extended row: the computed values, and every
      other column as the row had it. */
  lemma SilverColumnsOfExtend(row: Record, first: Value, last: Value, dob: Value, rel: Value, cleanedAt: string)
    ensures SilverColumns(Extend(row, first, last, dob, rel, cleanedAt)) == SilverMember(
      Get(row, "load_run_id"), Get(row, "source_vendor"), Get(row, "source_file"),
      Get(row, "source_row"), Get(row, "record_hash_raw"),
      first, last, dob, rel,
      Get(row, "plan_type"), Get(row, "provider"), Get(row, "first_name_raw"),
      Get(row, "last_name_raw"), Get(row, "dob_raw"), Get(row, "relationship_raw"),
      Get(row, "ingested_at"), Str(cleanedAt))
  {
  }

  /** What each silver column holds: the cleaned names, the vendor's date and
      relationship rules, the run's timestamp, and every other column copied
      from the raw row. */
  lemma SilverRowColumns(cfg: NormalizationConfig, row: Record, cleanedAt: string)
    ensures SilverRow(cfg, row, cleanedAt) == SilverMember(
      Get(row, "load_run_id"), Get(row, "source_vendor"), Get(row, "source_file"),
      Get(row, "source_row"), Get(row, "record_hash_raw"),
      Str(CleanName(Get(row, "first_name_raw"))),
      Str(CleanName(Get(row, "last_name_raw"))),
      NormalizeDob(cfg.dateFormats, row),
      Str(NormalizeRelationship(cfg.relMaps, row)),
      Get(row, "plan_type"), Get(row, "provider"), Get(row, "first_name_raw"),
      Get(row, "last_name_raw"), Get(row, "dob_raw"), Get(row, "relationship_raw"),
      Get(row, "ingested_at"), Str(cleanedAt))
  {
    SilverColumnsOfExtend(row,
      CleanNameValue(Get(row, "first_name_raw")),
      CleanNameValue(Get(row, "last_name_raw")),
      NormalizeDob(cfg.dateFormats, row),
      Str(NormalizeRelationship(cfg.relMaps, row)),
      cleanedAt);
  }

  /** The normalized names hold only lower-case letters and digits, the date
      is null or ten characters YYYY-MM-DD, and the relationship is a label
      of the row's own vendor's mapping or OTHER. */
  lemma SilverRowVocabulary(cfg: NormalizationConfig, row: Record, cleanedAt: string)
    ensures var s := SilverRow(cfg, row, cleanedAt);
      && s.firstNameNorm.Str? && (forall i :: 0 <= i < |s.firstNameNorm.s| ==> IsLowerAlnum(s.firstNameNorm.s[i]))
      && s.lastNameNorm.Str? && (forall i :: 0 <= i < |s.lastNameNorm.s| ==> IsLowerAlnum(s.lastNameNorm.s[i]))
      && (s.dobNorm.Null? || (s.dobNorm.Str? && |s.dobNorm.s| == 10 && s.dobNorm.s[4] == '-' && s.dobNorm.s[7] == '-'))
      && s.relationshipNorm.Str?
      && (s.relationshipNorm.s == Other ||
            (s.sourceVendor.Str? && s.sourceVendor.s in cfg.relMaps && s.relationshipNorm.s in cfg.relMaps[s.sourceVendor.s].Values))
  {
    SilverRowColumns(cfg, row, cleanedAt);
    RelationshipVocabulary(cfg.relMaps, row);
  }

  /** Without a configuration file every date is null and every
      relationship is OTHER. */
  lemma EmptyConfigDefaults(src: ConfigSource, row: Record, cleanedAt: string)
    requires src.Missing? || src.Unparsable? || src == Parsed(None)
    ensures SilverRow(LoadNormalizationConfig(src), row, cleanedAt).dobNorm == Null
    ensures SilverRow(LoadNormalizationConfig(src), row, cleanedAt).relationshipNorm == Str(Other)
  {
    SilverRowColumns(LoadNormalizationConfig(src), row, cleanedAt);
  }

  /** The date rule reads only the vendor and the raw date. */
  lemma NormalizeDobReads(dateFormats: map<string, string>, r1: Record, r2: Record)
    requires Get(r1, "source_vendor") == Get(r2, "source_vendor")
    requires Get(r1, "dob_raw") == Get(r2, "dob_raw")
    ensures NormalizeDob(dateFormats, r1) == NormalizeDob(dateFormats, r2)
  {
  }

  // ---------------------------------------------------------------------
  // The column passes over the selected rows
  // ---------------------------------------------------------------------

  /** df.loc[mask, col] = f(row): every row the mask selects gets col set
      from its own values; the other rows are untouched. */
  method AssignWhere(df: array<Record>, col: string, mask: Record -> bool, f: Record -> Value)
    modifies df
    ensures forall i :: 0 <= i < df.Length ==>
      df[i] == if mask(old(df[i])) then old(df[i])[col := f(old(df[i]))] else old(df[i])
  {
    var i := 0;
    while i < df.Length
      invariant 0 <= i <= df.Length
      invariant forall j :: 0 <= j < i ==>
        df[j] == if mask(old(df[j])) then old(df[j])[col := f(old(df[j]))] else old(df[j])
      invariant forall j :: i <= j < df.Length ==> df[j] == old(df[j])
    {
      if mask(df[i]) {
        df[i] := df[i][col := f(df[i])];
      }
      i := i + 1;
    }
  }

  /** df[col] = df[input].apply(f). */
  method ApplyColumn(df: array<Record>, col: string, input: string, f: Value -> Value)
    modifies df
    ensures forall i :: 0 <= i < df.Length ==> df[i] == old(df[i])[col := f(Get(old(df[i]), input))]
  {
    AssignWhere(df, col, r => true, r => f(Get(r, input)));
  }

  /** The value a per-vendor rule gives a row: the rule of the row's vendor
      applied to the input column, or the default for a vendor without one. */
  function ByVendor(vendors: set<string>, default: Value, rule: (string, Value) -> Value, input: string, row: Record): Value
  {
    match Get(row, "source_vendor")
    case Str(v) => if v in vendors then rule(v, Get(row, input)) else default
    case _ => default
  }

  /** Adding one vendor's rule changes only that vendor's rows. */
  lemma ByVendorAdd(vendors: set<string>, vendor: string, default: Value, rule: (string, Value) -> Value, input: string, row: Record)
    ensures ByVendor(vendors + {vendor}, default, rule, input, row)
         == if Get(row, "source_vendor") == Str(vendor) then rule(vendor, Get(row, input))
            else ByVendor(vendors, default, rule, input, row)
  {
  }

  /** One vendor's masked pass over a row that holds the earlier vendors'
      value. */
  lemma VendorStep(row: Record, prev: Record, next: Record, col: string, input: string, default: Value,
                   done: set<string>, vendor: string, rule: (string, Value) -> Value)
    requires col != "source_vendor" && col != input
    requires prev == row[col := ByVendor(done, default, rule, input, row)]
    requires next == if Get(prev, "source_vendor") == Str(vendor) then prev[col := rule(vendor, Get(prev, input))] else prev
    ensures next == row[col := ByVendor(done + {vendor}, default, rule, input, row)]
  {
    ByVendorAdd(done, vendor, default, rule, input, row);
    assert Get(prev, "source_vendor") == Get(row, "source_vendor");
    assert Get(prev, input) == Get(row, input);
  }

  /** col = default, then for each vendor with a rule,
      df.loc[vendor's rows, col] = rule(vendor, input column). The vendors
      are taken in any order: their row sets are disjoint. */
  method VendorPasses(df: array<Record>, col: string, input: string, default: Value,
                      vendors: set<string>, rule: (string, Value) -> Value)
    requires col != "source_vendor" && col != input
    modifies df
    ensures forall i :: 0 <= i < df.Length ==>
      df[i] == old(df[i])[col := ByVendor(vendors, default, rule, input, old(df[i]))]
  {
    ghost var base := df[..];
    AssignWhere(df, col, r => true, r => default);
    var todo := vendors;
    while todo != {}
      invariant todo <= vendors
      invariant forall i :: 0 <= i < df.Length ==>
        df[i] == base[i][col := ByVendor(vendors - todo, default, rule, input, base[i])]
      decreases |todo|
    {
      var vendor :| vendor in todo;
      ghost var done := vendors - todo;
      ghost var prev := df[..];
      AssignWhere(df, col, r => Get(r, "source_vendor") == Str(vendor), r => rule(vendor, Get(r, input)));
      todo := todo - {vendor};
      assert vendors - todo == done + {vendor};
      forall i | 0 <= i < df.Length
        ensures df[i] == base[i][col := ByVendor(vendors - todo, default, rule, input, base[i])]
      {
        VendorStep(base[i], prev[i], df[i], col, input, default, done, vendor, rule);
      }
    }
  }

  /** The per-vendor date rule: parse with the vendor's format. */
  function DobRule(dateFormats: map<string, string>): (string, Value) -> Value
  {
    (v, raw) => if v in dateFormats then DobValue(dateFormats[v], raw) else Null
  }

  /** The date passes compute the date rule of each row. */
  lemma DobByVendor(dateFormats: map<string, string>, row: Record)
    ensures ByVendor(dateFormats.Keys, Null, DobRule(dateFormats), "dob_raw", row) == NormalizeDob(dateFormats, row)
  {
  }

  /** The per-vendor relationship rule: look the key up in the vendor's
      mapping, OTHER when it is absent. */
  function RelationshipRule(relMaps: map<string, map<string, string>>): (string, Value) -> Value
  {
    (v, raw) =>
      if v in relMaps then
        var key := RelationshipKey(raw);
        Str(if key in relMaps[v] then relMaps[v][key] else Other)
      else Str(Other)
  }

  /** The relationship passes compute the relationship rule of each row. */
  lemma RelationshipByVendor(relMaps: map<string, map<string, string>>, row: Record)
    ensures ByVendor(relMaps.Keys, Str(Other), RelationshipRule(relMaps), "relationship_raw", row)
         == Str(NormalizeRelationship(relMaps, row))
  {
  }

  /** run_stage2_cleaning: the run's rows, each normalized and projected; an
      empty run writes nothing and returns 0. The returned rows are the ones
      appended to silver_members, one per selected raw row and in the same
      order, and the count is their number. */
  method RunStage2Cleaning(src: ConfigSource, rawStaging: seq<Record>, loadRunId: string, cleanedAt: string)
    returns (count: nat, silver: seq<SilverMember>)
    ensures var rows := RowsOfRun(rawStaging, loadRunId);
      && count == |rows| == |silver|
      && forall i :: 0 <= i < |rows| ==> silver[i] == SilverRow(LoadNormalizationConfig(src), rows[i], cleanedAt)
  {
    var config := LoadNormalizationConfig(src);
    var rows := RowsOfRun(rawStaging, loadRunId);
    if |rows| == 0 {
      return 0, [];
    }
    var df := new Record[|rows|](i requires 0 <= i < |rows| => rows[i]);
    assert df[..] == rows;
    silver := CleanRows(df, config, cleanedAt);
    count := df.Length;
  }

  /** The column passes over the selected rows, then df[silver_cols]: each
      row's silver row, in row order. */
  method CleanRows(df: array<Record>, config: NormalizationConfig, cleanedAt: string) returns (silver: seq<SilverMember>)
    modifies df
    ensures |silver| == df.Length
    ensures forall i :: 0 <= i < df.Length ==> silver[i] == SilverRow(config, old(df[i]), cleanedAt)
  {
    NormalizeRows(df, config, cleanedAt);
    silver := seq(df.Length, i requires 0 <= i < df.Length reads df => SilverColumns(df[i]));
  }

  /** The column passes of the run, in order: names, dates, relationships,
      timestamp. Each row ends up normalized from its own raw values. */
  method NormalizeRows(df: array<Record>, config: NormalizationConfig, cleanedAt: string)
    modifies df
    ensures forall i :: 0 <= i < df.Length ==> df[i] == Normalized(config, old(df[i]), cleanedAt)
  {
    ghost var rows := df[..];
    ApplyColumn(df, "first_name_norm", "first_name_raw", CleanNameValue);
    ghost var first := df[..];
    ApplyColumn(df, "last_name_norm", "last_name_raw", CleanNameValue);
    ghost var named := df[..];
    VendorPasses(df, "dob_norm", "dob_raw", Null, config.dateFormats.Keys, DobRule(config.dateFormats));
    ghost var dated := df[..];
    VendorPasses(df, "relationship_norm", "relationship_raw", Str(Other), config.relMaps.Keys, RelationshipRule(config.relMaps));
    AssignWhere(df, "cleaned_at", r => true, r => Str(cleanedAt));
    forall i | 0 <= i < df.Length
      ensures df[i] == Normalized(config, rows[i], cleanedAt)
    {
      NamePasses(rows[i], first[i], named[i], CleanNameValue);
      VendorPassesCompose(rows[i], named[i], dated[i], df[i],
        CleanNameValue(Get(rows[i], "first_name_raw")), CleanNameValue(Get(rows[i], "last_name_raw")),
        config.dateFormats.Keys, DobRule(config.dateFormats), config.relMaps.Keys, RelationshipRule(config.relMaps), cleanedAt);
      DobByVendor(config.dateFormats, rows[i]);
      RelationshipByVendor(config.relMaps, rows[i]);
    }
  }

  /** The name passes: each name column is computed from its raw column,
      which the other name pass leaves alone. */
  lemma NamePasses(row: Record, first: Record, named: Record, clean: Value -> Value)
    requires first == row["first_name_norm" := clean(Get(row, "first_name_raw"))]
    requires named == first["last_name_norm" := clean(Get(first, "last_name_raw"))]
    ensures named == row["first_name_norm" := clean(Get(row, "first_name_raw"))]
                        ["last_name_norm" := clean(Get(row, "last_name_raw"))]
  {
    assert Get(first, "last_name_raw") == Get(row, "last_name_raw");
  }

  /** A per-vendor rule reads only the vendor and its input column. */
  lemma ByVendorReads(vendors: set<string>, default: Value, rule: (string, Value) -> Value, input: string, r1: Record, r2: Record)
    requires Get(r1, "source_vendor") == Get(r2, "source_vendor") && Get(r1, input) == Get(r2, input)
    ensures ByVendor(vendors, default, rule, input, r1) == ByVendor(vendors, default, rule, input, r2)
  {
  }

  /** The date and relationship passes see the raw row's vendor and inputs,
      whatever the earlier passes wrote. */
  lemma VendorPassesCompose(row: Record, named: Record, dated: Record, final: Record, first: Value, last: Value,
                            dateVendors: set<string>, dobRule: (string, Value) -> Value,
                            relVendors: set<string>, relRule: (string, Value) -> Value, cleanedAt: string)
    requires named == row["first_name_norm" := first]["last_name_norm" := last]
    requires dated == named["dob_norm" := ByVendor(dateVendors, Null, dobRule, "dob_raw", named)]
    requires final == dated["relationship_norm" := ByVendor(relVendors, Str(Other), relRule, "relationship_raw", dated)]
                           ["cleaned_at" := Str(cleanedAt)]
    ensures final == Extend(row, first, last,
                            ByVendor(dateVendors, Null, dobRule, "dob_raw", row),
                            ByVendor(relVendors, Str(Other), relRule, "relationship_raw", row), cleanedAt)
  {
    ByVendorReads(dateVendors, Null, dobRule, "dob_raw", named, row);
    ByVendorReads(relVendors, Str(Other), relRule, "relationship_raw", dated, row);
  }
}
