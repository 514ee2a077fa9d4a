/**
 * The per-vendor loop of the raw-ingest stage (ingest_stage1_hybrid): each
 * raw record becomes a canonical raw_staging row with lineage and a content
 * hash, and a raw_staging_payload sidecar row keyed the same way; both go
 * through two buffers flushed together every 1000 rows and at the end of the
 * vendor, and a commit closes each vendor.
 *
 * A table row is modelled as the map from each of the table's columns to its
 * value (the tuple the source builds, indexed by column name).
 */
module Ingest {
  import opened Wrappers
  import opened Values
  import opened VendorConfigs
  import opened Canonical
  import opened ContentHash
  import opened InputFiles
  import opened Readers

  const BatchSize: nat := 1000

  /** What the loop needs besides the vendor's configuration: the run id, the
      vendor's ingestion time, the two tables' columns (PRAGMA table_info) and
      the digest of serialized content. */
  datatype Context = Context(
    loadRunId: string,
    ingestedAt: string,
    rawCols: seq<string>,
    payloadCols: seq<string>,
    digest: seq<(string, Value)> -> string)

  /** The tuple for one table: each column's value, None when the record
      lacks it. */
  function Project(rec: Record, cols: seq<string>): (r: Record)
    ensures forall c :: c in r <==> c in cols
    ensures forall c :: c in cols ==> r[c] == Get(rec, c)
  {
    map c | c in cols :: Get(rec, c)
  }

  /** The canonical content with the lineage fields set over it. */
  function WithLineage(cfg: VendorConfig, content: Record, sourceRow: nat, ctx: Context): Record
  {
    content["source_vendor" := Str(cfg.sourceVendor)]["source_file" := Str(cfg.file)]
      ["source_row" := Num(sourceRow)]["load_run_id" := Str(ctx.loadRunId)]["ingested_at" := Str(ctx.ingestedAt)]
  }

  /** record_hash_raw of a row: the content hash of the row with lineage. */
  function RowHash(cfg: VendorConfig, content: Record, sourceRow: nat, ctx: Context): string
  {
    RecordHashRaw(WithLineage(cfg, content, sourceRow, ctx), ctx.rawCols, ctx.digest)
  }

  /** The payload sidecar record; raw_payload_json holds the raw record (the
      value its JSON text encodes). */
  function PayloadRecord(cfg: VendorConfig, raw: Value, sourceRow: nat, hash: string, ctx: Context): Record
  {
    map["load_run_id" := Str(ctx.loadRunId), "source_vendor" := Str(cfg.sourceVendor),
        "source_file" := Str(cfg.file), "source_row" := Num(sourceRow),
        "ingested_at" := Str(ctx.ingestedAt), "record_hash_raw" := Str(hash),
        "raw_payload_json" := raw]
  }

  /** The two rows one raw record becomes. */
  datatype RowPair = RowPair(raw: Record, payload: Record)

  function PairOf(cfg: VendorConfig, raw: Value, content: Record, sourceRow: nat, ctx: Context): RowPair
  {
    var hash := RowHash(cfg, content, sourceRow, ctx);
    RowPair(
      Project(WithLineage(cfg, content, sourceRow, ctx)["record_hash_raw" := Str(hash)], ctx.rawCols),
      Project(PayloadRecord(cfg, raw, sourceRow, hash, ctx), ctx.payloadCols))
  }

  /** The rows of the record numbered sourceRow, or the error that building
      its canonical row raises. */
  function RowOf(cfg: VendorConfig, raw: Value, sourceRow: nat, ctx: Context): Result<RowPair, IngestError>
  {
    match Canonicalize(cfg, raw)
    case Failure(e) => Failure(e)
    case Success(content) => Success(PairOf(cfg, raw, content, sourceRow, ctx))
  }

  /** The rows produced for a vendor, and the error that stopped it, if any. */
  datatype Outcome = Outcome(pairs: seq<RowPair>, failure: Option<IngestError>)

  /** The rows of the record at index i of a vendor's records, which is
      source_row i + 1. */
  function RowAt(cfg: VendorConfig, records: seq<Value>, ctx: Context, i: nat): Result<RowPair, IngestError>
    requires i < |records|
  {
    RowOf(cfg, records[i], i + 1, ctx)
  }

  /** The rows of each record of a vendor, in order. */
  function Rows(cfg: VendorConfig, records: seq<Value>, ctx: Context): (rs: seq<Result<RowPair, IngestError>>)
    ensures |rs| == |records|
    ensures forall i {:trigger RowAt(cfg, records, ctx, i)} :: 0 <= i < |records| ==> rs[i] == RowAt(cfg, records, ctx, i)
  {
    seq(|records|, i requires 0 <= i < |records| => RowAt(cfg, records, ctx, i))
  }

  /** The row loop from index i on: the rows of each record until the
      first error, which stops the vendor. */
  function Collect(rows: seq<Result<RowPair, IngestError>>, i: nat): (o: Outcome)
    requires i <= |rows|
    ensures |o.pairs| <= |rows| - i
    decreases |rows| - i
  {
    if i == |rows| then Outcome([], None)
    else match rows[i]
      case Failure(e) => Outcome([], Some(e))
      case Success(pair) =>
        var rest := Collect(rows, i + 1);
        Outcome([pair] + rest.pairs, rest.failure)
  }

  /** The loop yields the rows from index i in order while they succeed: all
      of them when nothing fails (one pair per record, so cnt is the number
      of records), and otherwise the pairs before the first failing row,
      whose error stops it. */
  lemma {:induction false} CollectShape(rows: seq<Result<RowPair, IngestError>>, i: nat)
    requires i <= |rows|
    ensures var o := Collect(rows, i);
      && (forall k :: 0 <= k < |o.pairs| ==> rows[i + k] == Success(o.pairs[k]))
      && (o.failure.None? ==> |o.pairs| == |rows| - i)
      && (o.failure.Some? ==> i + |o.pairs| < |rows| && rows[i + |o.pairs|] == Failure(o.failure.value))
    decreases |rows| - i
  {
    if i < |rows| && rows[i].Success? {
      CollectShape(rows, i + 1);
      var o, rest := Collect(rows, i), Collect(rows, i + 1);
      forall k | 0 <= k < |o.pairs| ensures rows[i + k] == Success(o.pairs[k]) {
        if k > 0 {
          assert o.pairs[k] == rest.pairs[k - 1];
          assert rows[(i + 1) + (k - 1)] == Success(rest.pairs[k - 1]);
        }
      }
    }
  }

  /** One vendor: a missing file or an unusable format stops it before any
      row; otherwise its records are processed from source_row 1, and a
      reader error raised after the last record stops it there. */
  function VendorRun(cfg: VendorConfig, files: InputDir, parse: string -> Option<Value>, ctx: Context): Outcome
  {
    if cfg.file !in files then Outcome([], Some(MissingInputFile(cfg.sourceVendor, cfg.file)))
    else match SelectReader(cfg)
      case Failure(e) => Outcome([], Some(e))
      case Success(reader) =>
        var stream := Read(reader, files[cfg.file], parse);
        var o := Collect(Rows(cfg, stream.records, ctx), 0);
        if o.failure.Some? then o else Outcome(o.pairs, stream.failure)
  }

  /** A vendor that completes read its file with the reader its format
      selects, and yields one row pair per record read, in order: the count
      stored for it is the number of records. */
  lemma VendorRunCount(cfg: VendorConfig, files: InputDir, parse: string -> Option<Value>, ctx: Context)
    ensures var o := VendorRun(cfg, files, parse, ctx);
      o.failure.None? ==>
        && cfg.file in files && SelectReader(cfg).Success?
        && var records := Read(SelectReader(cfg).value, files[cfg.file], parse).records;
        && |o.pairs| == |records|
        && forall k :: 0 <= k < |records| ==> Success(o.pairs[k]) == RowAt(cfg, records, ctx, k)
  {
    if cfg.file in files && SelectReader(cfg).Success? {
      var records := Read(SelectReader(cfg).value, files[cfg.file], parse).records;
      CollectShape(Rows(cfg, records, ctx), 0);
    }
  }

  function Raws(pairs: seq<RowPair>): (r: seq<Record>)
    ensures |r| == |pairs|
  {
    seq(|pairs|, i requires 0 <= i < |pairs| => pairs[i].raw)
  }

  function Payloads(pairs: seq<RowPair>): (r: seq<Record>)
    ensures |r| == |pairs|
  {
    seq(|pairs|, i requires 0 <= i < |pairs| => pairs[i].payload)
  }

  /** The rows already flushed after n appends: the largest multiple of the
      batch size not above n. */
  function Flushed(n: nat): (f: nat)
    ensures f <= n && f % BatchSize == 0 && n - f < BatchSize
  {
    n - n % BatchSize
  }

  /** The connection: the rows of raw_staging and raw_staging_payload it
      sees, the rows a commit has made durable, the two batch buffers and
      the row counter of the current vendor. */
  class Warehouse {
    var rawStaging: seq<Record>
    var payloadStaging: seq<Record>
    var committedRaw: seq<Record>
    var committedPayload: seq<Record>
    var batchRaw: seq<Record>
    var batchPayload: seq<Record>
    var cnt: nat

    /** sqlite3.connect: the durable tables, nothing pending. */
    constructor(raw: seq<Record>, payload: seq<Record>)
      ensures rawStaging == raw && committedRaw == raw
      ensures payloadStaging == payload && committedPayload == payload
      ensures batchRaw == [] && batchPayload == [] && cnt == 0
    {
      rawStaging, committedRaw := raw, raw;
      payloadStaging, committedPayload := payload, payload;
      batchRaw, batchPayload, cnt := [], [], 0;
    }

    /** The two buffers hold the rows since the last flush of this vendor, one
        raw and one payload row for each. */
    predicate Batched()
      reads this
    {
      |batchRaw| == |batchPayload| == cnt % BatchSize
    }

    /** A new vendor starts with a zero counter and empty buffers. */
    method StartVendor()
      modifies this
      ensures Batched()
      ensures cnt == 0 && batchRaw == [] && batchPayload == []
      ensures rawStaging == old(rawStaging) && payloadStaging == old(payloadStaging)
      ensures Staged(old(rawStaging), old(payloadStaging), [], [])
      ensures committedRaw == old(committedRaw) && committedPayload == old(committedPayload)
    {
      cnt, batchRaw, batchPayload := 0, [], [];
    }

    /** The current vendor has produced the rows raws and pays so far: the
        tables, after what they held before the vendor (raw0 and payload0),
        followed by the buffers hold exactly these rows; with Batched, the
        buffers hold the rows after the last multiple of the batch size. */
    ghost predicate Staged(raw0: seq<Record>, payload0: seq<Record>, raws: seq<Record>, pays: seq<Record>)
      reads this
    {
      && Batched() && |raws| == |pays| == cnt
      && rawStaging + batchRaw == raw0 + raws
      && payloadStaging + batchPayload == payload0 + pays
    }

    /** Buffer one row pair; on every multiple of the batch size both
        buffers go to their tables (executemany) and are cleared. */
    method Append(pair: RowPair, ghost raw0: seq<Record>, ghost payload0: seq<Record>, ghost raws: seq<Record>, ghost pays: seq<Record>)
      requires Batched()
      requires Staged(raw0, payload0, raws, pays)
      modifies this
      ensures Batched()
      ensures cnt == old(cnt) + 1
      ensures cnt % BatchSize == 0 ==>
        && rawStaging == old(rawStaging) + old(batchRaw) + [pair.raw]
        && payloadStaging == old(payloadStaging) + old(batchPayload) + [pair.payload]
        && batchRaw == [] && batchPayload == []
      ensures cnt % BatchSize != 0 ==>
        && rawStaging == old(rawStaging) && payloadStaging == old(payloadStaging)
        && batchRaw == old(batchRaw) + [pair.raw] && batchPayload == old(batchPayload) + [pair.payload]
      ensures committedRaw == old(committedRaw) && committedPayload == old(committedPayload)
      ensures Staged(raw0, payload0, raws + [pair.raw], pays + [pair.payload])
    {
      AppendAssoc(rawStaging, batchRaw, pair.raw);
      AppendAssoc(payloadStaging, batchPayload, pair.payload);
      AppendAssoc(raw0, raws, pair.raw);
      AppendAssoc(payload0, pays, pair.payload);
      batchRaw := batchRaw + [pair.raw];
      batchPayload := batchPayload + [pair.payload];
      cnt := cnt + 1;
      if cnt % BatchSize == 0 {
        rawStaging := rawStaging + batchRaw;
        payloadStaging := payloadStaging + batchPayload;
        batchRaw, batchPayload := [], [];
      }
    }

    /** The end-of-vendor flush of a non-empty remainder (the buffers are not
        cleared; the next vendor starts new ones). */
    method FlushRemainder()
      requires Batched()
      modifies this
      ensures rawStaging == old(rawStaging) + old(batchRaw)
      ensures payloadStaging == old(payloadStaging) + old(batchPayload)
      ensures batchRaw == old(batchRaw) && batchPayload == old(batchPayload) && cnt == old(cnt)
      ensures committedRaw == old(committedRaw) && committedPayload == old(committedPayload)
    {
      if batchRaw != [] {
        rawStaging := rawStaging + batchRaw;
        payloadStaging := payloadStaging + batchPayload;
      }
    }

    /** conn.commit(): everything the connection sees becomes durable. */
    method Commit()
      modifies this
      ensures committedRaw == rawStaging == old(rawStaging)
      ensures committedPayload == payloadStaging == old(payloadStaging)
      ensures batchRaw == old(batchRaw) && batchPayload == old(batchPayload) && cnt == old(cnt)
    {
      committedRaw, committedPayload := rawStaging, payloadStaging;
    }

    /** conn.close(): rows inserted since the last commit are discarded. */
    method Close()
      modifies this
      ensures rawStaging == committedRaw == old(committedRaw)
      ensures payloadStaging == committedPayload == old(committedPayload)
      ensures batchRaw == old(batchRaw) && batchPayload == old(batchPayload) && cnt == old(cnt)
    {
      rawStaging, payloadStaging := committedRaw, committedPayload;
    }

    /** The loop has handled the first |done| of the rows: their pairs are
        done and staged as far as the batches go, and what the loop yields
        is done followed by what the remaining rows yield. */
    ghost predicate Progress(rows: seq<Result<RowPair, IngestError>>, raw0: seq<Record>, payload0: seq<Record>, done: seq<RowPair>)
      reads this
    {
      && |done| <= |rows| && cnt == |done|
      && Collect(rows, 0).pairs == done + Collect(rows, |done|).pairs
      && Collect(rows, 0).failure == Collect(rows, |done|).failure
      && Staged(raw0, payload0, Raws(done), Payloads(done))
    }

    /** The body of the row loop for the record numbered sourceRow: build its
        canonical row, set the lineage and the hash, build the payload
        record and buffer both; an error stops the loop and leaves
        everything as it was. */
    method AppendRecord(cfg: VendorConfig, raw: Value, sourceRow: nat, ctx: Context,
                        ghost rows: seq<Result<RowPair, IngestError>>, ghost raw0: seq<Record>, ghost payload0: seq<Record>, ghost done: seq<RowPair>)
      returns (r: Result<RowPair, IngestError>)
      requires sourceRow == |done| + 1 && |done| < |rows|
      requires rows[|done|] == RowOf(cfg, raw, sourceRow, ctx)
      requires Progress(rows, raw0, payload0, done)
      modifies this
      ensures r == RowOf(cfg, raw, sourceRow, ctx)
      ensures r.Failure? ==> Collect(rows, 0) == Outcome(done, Some(r.error)) && Staged(raw0, payload0, Raws(done), Payloads(done))
      ensures r.Success? ==> Progress(rows, raw0, payload0, done + [r.value])
      ensures committedRaw == old(committedRaw) && committedPayload == old(committedPayload)
    {
      CollectStep(rows, |done|, done);
      var content := BuildCanonicalRow(cfg, raw);
      if content.Failure? {
        assert Collect(rows, 0).pairs == done + [];
        return Failure(content.error);
      }
      var pair := PairOf(cfg, raw, content.value, sourceRow, ctx);
      PairsAppend(done, pair);
      Append(pair, raw0, payload0, Raws(done), Payloads(done));
      r := Success(pair);
    }

    /** The row loop over a vendor's records, numbered from 1; the first
        canonicalization error stops it. The tables then hold the flushed
        batches and the buffers the rest. */
    method AppendRecords(cfg: VendorConfig, records: seq<Value>, ctx: Context, ghost rows: seq<Result<RowPair, IngestError>>)
      returns (failure: Option<IngestError>)
      requires |rows| == |records|
      requires forall i {:trigger RowAt(cfg, records, ctx, i)} :: 0 <= i < |records| ==> rows[i] == RowAt(cfg, records, ctx, i)
      modifies this
      ensures failure == Collect(rows, 0).failure
      ensures Staged(old(rawStaging), old(payloadStaging), Raws(Collect(rows, 0).pairs), Payloads(Collect(rows, 0).pairs))
      ensures committedRaw == old(committedRaw) && committedPayload == old(committedPayload)
    {
      ghost var done: seq<RowPair> := [];
      StartVendor();
      var i := 0;
      assert Raws([]) == [] && Payloads([]) == [];
      while i < |records|
        invariant i == |done| <= |records|
        invariant Progress(rows, old(rawStaging), old(payloadStaging), done)
        invariant committedRaw == old(committedRaw) && committedPayload == old(committedPayload)
      {
        assert rows[i] == RowAt(cfg, records, ctx, i);
        var row := AppendRecord(cfg, records[i], i + 1, ctx, rows, old(rawStaging), old(payloadStaging), done);
        if row.Failure? {
          assert Collect(rows, 0).pairs == done;
          return Some(row.error);
        }
        done := done + [row.value];
        i := i + 1;
      }
      assert Collect(rows, 0).pairs == done + [] == done;
      return None;
    }

    /** One vendor of the loop. On success every row pair is in both tables,
        committed, and the count returned is the number of records read; on
        an error the rows of the completed batches stay visible but
        uncommitted. */
    method IngestVendor(cfg: VendorConfig, files: InputDir, parse: string -> Option<Value>, ctx: Context)
      returns (r: Result<nat, IngestError>)
      modifies this
      ensures var o := VendorRun(cfg, files, parse, ctx);
        && (r.Success? <==> o.failure.None?)
        && (r.Success? ==>
              && r.value == |o.pairs|
              && rawStaging == old(rawStaging) + Raws(o.pairs)
              && payloadStaging == old(payloadStaging) + Payloads(o.pairs)
              && committedRaw == rawStaging && committedPayload == payloadStaging)
        && (r.Failure? ==>
              && r.error == o.failure.value
              && rawStaging == old(rawStaging) + Raws(o.pairs)[..Flushed(|o.pairs|)]
              && payloadStaging == old(payloadStaging) + Payloads(o.pairs)[..Flushed(|o.pairs|)]
              && committedRaw == old(committedRaw) && committedPayload == old(committedPayload))
    {
      if cfg.file !in files {
        return Failure(MissingInputFile(cfg.sourceVendor, cfg.file));
      }
      var reader := SelectReader(cfg);
      if reader.Failure? {
        return Failure(reader.error);
      }
      var stream := Read(reader.value, files[cfg.file], parse);
      ghost var rows := Rows(cfg, stream.records, ctx);
      ghost var o := Collect(rows, 0);
      var failure := AppendRecords(cfg, stream.records, ctx, rows);
      if failure.Some? || stream.failure.Some? {
        FlushedPrefix(rawStaging, batchRaw, old(rawStaging), Raws(o.pairs));
        FlushedPrefix(payloadStaging, batchPayload, old(payloadStaging), Payloads(o.pairs));
        return Failure(if failure.Some? then failure.value else stream.failure.value);
      }
      FlushRemainder();
      Commit();
      r := Success(cnt);
    }
  }

  /** One step of the row loop: a failed row stops it, a successful one
      moves from what is left to what is done. */
  lemma CollectStep(rows: seq<Result<RowPair, IngestError>>, i: nat, done: seq<RowPair>)
    requires i < |rows|
    ensures rows[i].Failure? ==> Collect(rows, i) == Outcome([], Some(rows[i].error))
    ensures rows[i].Success? ==>
      && done + Collect(rows, i).pairs == (done + [rows[i].value]) + Collect(rows, i + 1).pairs
      && Collect(rows, i).failure == Collect(rows, i + 1).failure
  {
    if rows[i].Success? {
      var rest := Collect(rows, i + 1).pairs;
      assert done + ([rows[i].value] + rest) == (done + [rows[i].value]) + rest;
    }
  }

  lemma PairsAppend(done: seq<RowPair>, p: RowPair)
    ensures Raws(done + [p]) == Raws(done) + [p.raw]
    ensures Payloads(done + [p]) == Payloads(done) + [p.payload]
  {
  }

  lemma AppendAssoc<T>(a: seq<T>, b: seq<T>, x: T)
    ensures a + b + [x] == a + (b + [x])
  {
  }

  /** What the tables hold while the buffers hold the rows after the last
      multiple of the batch size. */
  lemma FlushedPrefix<T>(table: seq<T>, batch: seq<T>, pre: seq<T>, xs: seq<T>)
    requires table + batch == pre + xs && |batch| == |xs| % BatchSize
    ensures table == pre + xs[..Flushed(|xs|)]
  {
    assert table == (table + batch)[..|table|];
    assert (pre + xs)[..|table|] == pre + xs[..Flushed(|xs|)];
  }

  /** What the whole run shares: the run id, the two tables' columns, the
      digest, and the clock (utc_now_iso), read once as each vendor starts:
      clock(i) is the reading for the vendor at index i. */
  datatype Env = Env(
    loadRunId: string,
    rawCols: seq<string>,
    payloadCols: seq<string>,
    digest: seq<(string, Value)> -> string,
    clock: nat -> string)

  function ContextAt(env: Env, i: nat): Context
  {
    Context(env.loadRunId, env.clock(i), env.rawCols, env.payloadCols, env.digest)
  }

  /** The end of a run: the row counts by vendor or the error that stopped
      it, and the durable contents of the two tables. */
  datatype RunOutcome = RunOutcome(inserted: Result<map<string, nat>, IngestError>, raw: seq<Record>, payload: seq<Record>)

  /** The run from the vendor at index i on, with the counts so far and the
      durable tables: each vendor's rows are committed and counted under its
      source_vendor (a later vendor of the same name replaces the count); the
      first vendor that fails stops the run, and its rows are not durable. */
  function RunFrom(cfgs: seq<VendorConfig>, files: InputDir, parse: string -> Option<Value>, env: Env,
                   i: nat, inserted: map<string, nat>, raw: seq<Record>, payload: seq<Record>): RunOutcome
    requires i <= |cfgs|
    decreases |cfgs| - i
  {
    if i == |cfgs| then RunOutcome(Success(inserted), raw, payload)
    else
      var o := VendorRun(cfgs[i], files, parse, ContextAt(env, i));
      if o.failure.Some? then RunOutcome(Failure(o.failure.value), raw, payload)
      else RunFrom(cfgs, files, parse, env, i + 1, inserted[cfgs[i].sourceVendor := |o.pairs|],
                   raw + Raws(o.pairs), payload + Payloads(o.pairs))
  }

  /** One vendor of the run: its error ends the run with the tables as they
      were; otherwise the run goes on with its rows committed and counted. */
  lemma RunStep(cfgs: seq<VendorConfig>, files: InputDir, parse: string -> Option<Value>, env: Env,
                i: nat, inserted: map<string, nat>, raw: seq<Record>, payload: seq<Record>)
    requires i < |cfgs|
    ensures var o := VendorRun(cfgs[i], files, parse, ContextAt(env, i));
      var out := RunFrom(cfgs, files, parse, env, i, inserted, raw, payload);
      && (o.failure.Some? ==> out == RunOutcome(Failure(o.failure.value), raw, payload))
      && (o.failure.None? ==>
            out == RunFrom(cfgs, files, parse, env, i + 1, inserted[cfgs[i].sourceVendor := |o.pairs|],
                           raw + Raws(o.pairs), payload + Payloads(o.pairs)))
  {
  }

  /** ingest_stage1_hybrid over the loaded vendor configurations, in order,
      on a warehouse whose tables hold raw0 and payload0: returns the counts
      by vendor, or the first error, and the durable tables once the
      connection is closed. */
  method IngestRun(cfgs: seq<VendorConfig>, files: InputDir, parse: string -> Option<Value>, env: Env,
                   raw0: seq<Record>, payload0: seq<Record>)
    returns (r: Result<map<string, nat>, IngestError>, raw: seq<Record>, payload: seq<Record>)
    ensures RunOutcome(r, raw, payload) == RunFrom(cfgs, files, parse, env, 0, map[], raw0, payload0)
  {
    var w := new Warehouse(raw0, payload0);
    var inserted: map<string, nat> := map[];
    var i := 0;
    while i < |cfgs|
      invariant 0 <= i <= |cfgs|
      invariant w.rawStaging == w.committedRaw && w.payloadStaging == w.committedPayload
      invariant RunFrom(cfgs, files, parse, env, 0, map[], raw0, payload0)
             == RunFrom(cfgs, files, parse, env, i, inserted, w.committedRaw, w.committedPayload)
    {
      RunStep(cfgs, files, parse, env, i, inserted, w.committedRaw, w.committedPayload);
      var n := w.IngestVendor(cfgs[i], files, parse, ContextAt(env, i));
      if n.Failure? {
        w.Close();
        return Failure(n.error), w.committedRaw, w.committedPayload;
      }
      inserted := inserted[cfgs[i].sourceVendor := n.value];
      i := i + 1;
    }
    w.Close();
    return Success(inserted), w.committedRaw, w.committedPayload;
  }
}
