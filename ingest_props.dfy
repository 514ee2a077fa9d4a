/**
 * What the raw-ingest stage promises about the rows it writes: each
 * raw_staging row and its raw_staging_payload sidecar share the lineage key
 * and the content hash, rows are numbered 1, 2, ... within a vendor, the
 * hash ignores lineage, the key join of the two tables pairs every row with
 * exactly its sidecar, and a run only ever appends to the tables.
 */
module IngestProperties {
  import opened Wrappers
  import opened Values
  import opened VendorConfigs
  import opened Canonical
  import opened ContentHash
  import opened InputFiles
  import opened Readers
  import opened Ingest

  /** Both tables have the columns of the join key and the hash column. */
  predicate HasKeyColumns(cols: seq<string>)
  {
    && "load_run_id" in cols && "source_vendor" in cols && "source_file" in cols
    && "source_row" in cols && "record_hash_raw" in cols
  }

  /** A raw_staging row and a raw_staging_payload row that the join on
      (load_run_id, source_vendor, source_file, source_row) pairs: equal on
      each key column, and not NULL there (NULL equals nothing in SQL); with
      sameHash, also equal and not NULL on record_hash_raw. */
  predicate Matches(s: Record, p: Record, sameHash: bool)
  {
    && Get(s, "load_run_id") != Null && Get(s, "load_run_id") == Get(p, "load_run_id")
    && Get(s, "source_vendor") != Null && Get(s, "source_vendor") == Get(p, "source_vendor")
    && Get(s, "source_file") != Null && Get(s, "source_file") == Get(p, "source_file")
    && Get(s, "source_row") != Null && Get(s, "source_row") == Get(p, "source_row")
    && (sameHash ==> Get(s, "record_hash_raw") != Null && Get(s, "record_hash_raw") == Get(p, "record_hash_raw"))
  }

  /** The payload rows one raw row joins with. */
  function MatchCount(s: Record, pays: seq<Record>, sameHash: bool): nat
  {
    if pays == [] then 0
    else (if Matches(s, pays[0], sameHash) then 1 else 0) + MatchCount(s, pays[1..], sameHash)
  }

  /** SELECT COUNT(*) of the key join of the two tables, restricted to the
      raw rows of one run (and to equal hashes with sameHash). */
  function JoinCount(raws: seq<Record>, pays: seq<Record>, runId: string, sameHash: bool): nat
  {
    if raws == [] then 0
    else
      (if Get(raws[0], "load_run_id") == Str(runId) then MatchCount(raws[0], pays, sameHash) else 0)
        + JoinCount(raws[1..], pays, runId, sameHash)
  }

  /** A row pair of the run runId numbered n: the raw row carries both, and
      matches its sidecar on the key and the hash. */
  predicate KeyedPair(pair: RowPair, runId: string, n: nat)
  {
    && Get(pair.raw, "load_run_id") == Str(runId)
    && Get(pair.raw, "source_row") == Num(n)
    && Matches(pair.raw, pair.payload, true)
  }

  /** Row pairs as one vendor writes them: pair k is numbered first + k. */
  predicate Keyed(pairs: seq<RowPair>, runId: string, first: nat)
  {
    forall k :: 0 <= k < |pairs| ==> KeyedPair(pairs[k], runId, first + k)
  }

  /** The raw_staging row of a record carries the record's lineage (run id,
      vendor, file, row number) and the hash of its canonical row; every
      other column holds the canonical row's value. */
  lemma PairRawShape(cfg: VendorConfig, raw: Value, content: Record, n: nat, ctx: Context)
    requires HasKeyColumns(ctx.rawCols)
    ensures var p := PairOf(cfg, raw, content, n, ctx).raw;
      && Get(p, "load_run_id") == Str(ctx.loadRunId)
      && Get(p, "source_vendor") == Str(cfg.sourceVendor)
      && Get(p, "source_file") == Str(cfg.file)
      && Get(p, "source_row") == Num(n)
      && Get(p, "record_hash_raw") == Str(RowHash(cfg, content, n, ctx))
      && (forall c :: c in ctx.rawCols && c !in ExcludeFromHash ==> Get(p, c) == Get(content, c))
  {
  }

  /** The raw_staging_payload row of a record carries the same lineage and
      hash as its raw_staging row, and the record as read. */
  lemma PairPayloadShape(cfg: VendorConfig, raw: Value, content: Record, n: nat, ctx: Context)
    requires HasKeyColumns(ctx.payloadCols)
    ensures var p := PairOf(cfg, raw, content, n, ctx).payload;
      && Get(p, "load_run_id") == Str(ctx.loadRunId)
      && Get(p, "source_vendor") == Str(cfg.sourceVendor)
      && Get(p, "source_file") == Str(cfg.file)
      && Get(p, "source_row") == Num(n)
      && Get(p, "record_hash_raw") == Str(RowHash(cfg, content, n, ctx))
      && ("raw_payload_json" in ctx.payloadCols ==> Get(p, "raw_payload_json") == raw)
  {
  }

  /** The hash of a row does not depend on its lineage: the same canonical
      row hashes alike for any vendor, file, row number, run or time. */
  lemma RowHashIgnoresLineage(cfg1: VendorConfig, cfg2: VendorConfig, content: Record, n1: nat, n2: nat, ctx1: Context, ctx2: Context)
    requires ctx1.rawCols == ctx2.rawCols && ctx1.digest == ctx2.digest
    ensures RowHash(cfg1, content, n1, ctx1) == RowHash(cfg2, content, n2, ctx2)
  {
    HashIgnoresLineage(WithLineage(cfg1, content, n1, ctx1), WithLineage(cfg2, content, n2, ctx2), ctx1.rawCols, ctx1.digest);
  }

  /** The pair of the record at index k is numbered k + 1, carries the run
      id, and its two rows match on key and hash. */
  lemma RowAtKeyed(cfg: VendorConfig, records: seq<Value>, ctx: Context, k: nat, pair: RowPair)
    requires HasKeyColumns(ctx.rawCols) && HasKeyColumns(ctx.payloadCols)
    requires k < |records| && RowAt(cfg, records, ctx, k) == Success(pair)
    ensures KeyedPair(pair, ctx.loadRunId, k + 1)
  {
    var content := Canonicalize(cfg, records[k]).value;
    PairRawShape(cfg, records[k], content, k + 1, ctx);
    PairPayloadShape(cfg, records[k], content, k + 1, ctx);
  }

  /** Every successful row of a vendor's records is numbered by its
      position from 1 and carries the run id. */
  lemma RowsKeyed(cfg: VendorConfig, records: seq<Value>, ctx: Context)
    requires HasKeyColumns(ctx.rawCols) && HasKeyColumns(ctx.payloadCols)
    ensures var rows := Rows(cfg, records, ctx);
      forall i :: 0 <= i < |rows| && rows[i].Success? ==> KeyedPair(rows[i].value, ctx.loadRunId, i + 1)
  {
    var rows := Rows(cfg, records, ctx);
    forall i | 0 <= i < |rows| && rows[i].Success? ensures KeyedPair(rows[i].value, ctx.loadRunId, i + 1) {
      assert rows[i] == RowAt(cfg, records, ctx, i);
      RowAtKeyed(cfg, records, ctx, i, rows[i].value);
    }
  }

  /** The row loop keeps the numbering of the rows it passes over: from
      index i on, the pairs it yields are numbered from i + 1. */
  lemma {:induction false} CollectKeyed(rows: seq<Result<RowPair, IngestError>>, runId: string, i: nat)
    requires i <= |rows|
    requires forall j :: i <= j < |rows| && rows[j].Success? ==> KeyedPair(rows[j].value, runId, j + 1)
    ensures Keyed(Collect(rows, i).pairs, runId, i + 1)
    decreases |rows| - i
  {
    if i < |rows| && rows[i].Success? {
      CollectKeyed(rows, runId, i + 1);
      var pairs, rest := Collect(rows, i).pairs, Collect(rows, i + 1).pairs;
      assert pairs == [rows[i].value] + rest;
      forall k | 0 <= k < |pairs| ensures KeyedPair(pairs[k], runId, i + 1 + k) {
        if k > 0 {
          assert pairs[k] == rest[k - 1];
        }
      }
    } else {
      assert Collect(rows, i).pairs == [];
    }
  }

  /** The raw row of pair k matches the payload rows from index i on once
      when i <= k, and none of them otherwise. */
  lemma {:induction false} MatchCountKeyed(pairs: seq<RowPair>, runId: string, first: nat, k: nat, i: nat, sameHash: bool)
    requires Keyed(pairs, runId, first) && k < |pairs| && i <= |pairs|
    ensures MatchCount(pairs[k].raw, Payloads(pairs)[i..], sameHash) == if i <= k then 1 else 0
    decreases |pairs| - i
  {
    var pays := Payloads(pairs);
    if i < |pairs| {
      assert pays[i..][0] == pairs[i].payload;
      assert pays[i..][1..] == pays[i + 1..];
      MatchCountKeyed(pairs, runId, first, k, i + 1, sameHash);
      if i != k {
        assert Get(pairs[i].payload, "source_row") == Num(first + i);
      }
    }
  }

  /** The join counts each raw row from index i on exactly once. */
  lemma {:induction false} JoinCountKeyed(pairs: seq<RowPair>, runId: string, first: nat, i: nat, sameHash: bool)
    requires Keyed(pairs, runId, first) && i <= |pairs|
    ensures JoinCount(Raws(pairs)[i..], Payloads(pairs), runId, sameHash) == |pairs| - i
    decreases |pairs| - i
  {
    var raws := Raws(pairs);
    if i < |pairs| {
      assert raws[i..][0] == pairs[i].raw;
      assert raws[i..][1..] == raws[i + 1..];
      assert Payloads(pairs)[0..] == Payloads(pairs);
      MatchCountKeyed(pairs, runId, first, i, 0, sameHash);
      JoinCountKeyed(pairs, runId, first, i + 1, sameHash);
    }
  }

  /** What the ingest test asserts for one vendor: both tables get one row
      per record, and the key join of the vendor's rows, with or without
      equal hashes, counts each of them exactly once. */
  lemma VendorJoinCount(cfg: VendorConfig, files: InputDir, parse: string -> Option<Value>, ctx: Context, sameHash: bool)
    requires HasKeyColumns(ctx.rawCols) && HasKeyColumns(ctx.payloadCols)
    ensures var o := VendorRun(cfg, files, parse, ctx);
      && |Raws(o.pairs)| == |Payloads(o.pairs)| == |o.pairs|
      && JoinCount(Raws(o.pairs), Payloads(o.pairs), ctx.loadRunId, sameHash) == |o.pairs|
  {
    var o := VendorRun(cfg, files, parse, ctx);
    if cfg.file in files && SelectReader(cfg).Success? {
      var stream := Read(SelectReader(cfg).value, files[cfg.file], parse);
      RowsKeyed(cfg, stream.records, ctx);
      CollectKeyed(Rows(cfg, stream.records, ctx), ctx.loadRunId, 0);
      assert o.pairs == Collect(Rows(cfg, stream.records, ctx), 0).pairs;
      JoinCountKeyed(o.pairs, ctx.loadRunId, 1, 0, sameHash);
      assert Raws(o.pairs)[0..] == Raws(o.pairs);
    }
  }

  /** A missing input file or a format no reader handles stops the vendor
      before it reads any record. */
  lemma VendorFailsEarly(cfg: VendorConfig, files: InputDir, parse: string -> Option<Value>, ctx: Context)
    ensures cfg.file !in files ==>
      VendorRun(cfg, files, parse, ctx) == Outcome([], Some(MissingInputFile(cfg.sourceVendor, cfg.file)))
    ensures cfg.file in files && cfg.format !in {"csv", "pipe_delimited", "xlsx", "jsonl"} ==>
      VendorRun(cfg, files, parse, ctx) == Outcome([], Some(UnsupportedFormat(cfg.format)))
  {
  }

  /** A run only appends: whatever the tables held before is still there,
      in place, whether the run succeeds or fails. */
  lemma {:induction false} RunOnlyAppends(cfgs: seq<VendorConfig>, files: InputDir, parse: string -> Option<Value>, env: Env,
                                          i: nat, inserted: map<string, nat>, raw: seq<Record>, payload: seq<Record>)
    requires i <= |cfgs|
    ensures var out := RunFrom(cfgs, files, parse, env, i, inserted, raw, payload);
      raw <= out.raw && payload <= out.payload
    decreases |cfgs| - i
  {
    if i < |cfgs| {
      var o := VendorRun(cfgs[i], files, parse, ContextAt(env, i));
      if o.failure.None? {
        RunOnlyAppends(cfgs, files, parse, env, i + 1, inserted[cfgs[i].sourceVendor := |o.pairs|],
                       raw + Raws(o.pairs), payload + Payloads(o.pairs));
      }
    }
  }

  /** The rows a successful run writes from vendor i on: the sum of the
      vendors' row counts. */
  function TotalRows(cfgs: seq<VendorConfig>, files: InputDir, parse: string -> Option<Value>, env: Env, i: nat): nat
    requires i <= |cfgs|
    decreases |cfgs| - i
  {
    if i == |cfgs| then 0
    else |VendorRun(cfgs[i], files, parse, ContextAt(env, i)).pairs| + TotalRows(cfgs, files, parse, env, i + 1)
  }

  /** After a successful run each table has grown by the total of the
      vendors' row counts. */
  lemma {:induction false} RunTotal(cfgs: seq<VendorConfig>, files: InputDir, parse: string -> Option<Value>, env: Env,
                                    i: nat, inserted: map<string, nat>, raw: seq<Record>, payload: seq<Record>)
    requires i <= |cfgs|
    ensures var out := RunFrom(cfgs, files, parse, env, i, inserted, raw, payload);
      out.inserted.Success? ==>
        && |out.raw| == |raw| + TotalRows(cfgs, files, parse, env, i)
        && |out.payload| == |payload| + TotalRows(cfgs, files, parse, env, i)
    decreases |cfgs| - i
  {
    if i < |cfgs| {
      var o := VendorRun(cfgs[i], files, parse, ContextAt(env, i));
      if o.failure.None? {
        RunTotal(cfgs, files, parse, env, i + 1, inserted[cfgs[i].sourceVendor := |o.pairs|],
                 raw + Raws(o.pairs), payload + Payloads(o.pairs));
      }
    }
  }

  /** With distinct vendor names, the count a successful run returns for
      each vendor is the number of rows that vendor wrote. */
  lemma {:induction false} RunCounts(cfgs: seq<VendorConfig>, files: InputDir, parse: string -> Option<Value>, env: Env,
                                     i: nat, inserted: map<string, nat>, raw: seq<Record>, payload: seq<Record>)
    requires i <= |cfgs|
    requires forall a, b :: i <= a < b < |cfgs| ==> cfgs[a].sourceVendor != cfgs[b].sourceVendor
    ensures var out := RunFrom(cfgs, files, parse, env, i, inserted, raw, payload);
      out.inserted.Success? ==>
        forall k :: i <= k < |cfgs| ==>
          && cfgs[k].sourceVendor in out.inserted.value
          && out.inserted.value[cfgs[k].sourceVendor] == |VendorRun(cfgs[k], files, parse, ContextAt(env, k)).pairs|
    decreases |cfgs| - i
  {
    if i < |cfgs| {
      var o := VendorRun(cfgs[i], files, parse, ContextAt(env, i));
      if o.failure.None? {
        var inserted' := inserted[cfgs[i].sourceVendor := |o.pairs|];
        var raw', payload' := raw + Raws(o.pairs), payload + Payloads(o.pairs);
        RunStep(cfgs, files, parse, env, i, inserted, raw, payload);
        RunCounts(cfgs, files, parse, env, i + 1, inserted', raw', payload');
        RunKeepsCount(cfgs, files, parse, env, i + 1, inserted', raw', payload', cfgs[i].sourceVendor);
        var out := RunFrom(cfgs, files, parse, env, i + 1, inserted', raw', payload');
        if out.inserted.Success? {
          forall k | i <= k < |cfgs|
            ensures && cfgs[k].sourceVendor in out.inserted.value
                    && out.inserted.value[cfgs[k].sourceVendor] == |VendorRun(cfgs[k], files, parse, ContextAt(env, k)).pairs|
          {
          }
        }
      }
    }
  }

  /** A count recorded before vendor i survives the run when no later vendor
      has the same name. */
  lemma {:induction false} RunKeepsCount(cfgs: seq<VendorConfig>, files: InputDir, parse: string -> Option<Value>, env: Env,
                                         i: nat, inserted: map<string, nat>, raw: seq<Record>, payload: seq<Record>, v: string)
    requires i <= |cfgs| && v in inserted
    requires forall k :: i <= k < |cfgs| ==> cfgs[k].sourceVendor != v
    ensures var out := RunFrom(cfgs, files, parse, env, i, inserted, raw, payload);
      out.inserted.Success? ==> v in out.inserted.value && out.inserted.value[v] == inserted[v]
    decreases |cfgs| - i
  {
    if i < |cfgs| {
      var o := VendorRun(cfgs[i], files, parse, ContextAt(env, i));
      if o.failure.None? {
        RunKeepsCount(cfgs, files, parse, env, i + 1, inserted[cfgs[i].sourceVendor := |o.pairs|],
                      raw + Raws(o.pairs), payload + Payloads(o.pairs), v);
      }
    }
  }
}
