/**
 * record_hash_raw: a digest of a canonical row's content columns, that is
 * the raw_staging columns minus a fixed set of lineage columns, serialized
 * with the keys in sorted order. The cryptographic digest of the serialized
 * entries is a parameter of the model.
 */
module ContentHash {
  import opened Values

  /** EXCLUDE_FROM_HASH: lineage columns and the hash column itself. */
  const ExcludeFromHash: set<string> :=
    {"source_vendor", "source_file", "source_row", "load_run_id", "ingested_at",
     "source_extract_date", "record_hash_raw"}

  /** Code-point order on strings, the order json.dumps(sort_keys=True)
      uses for keys. */
  predicate Below(a: string, b: string)
  {
    if a == [] then b != []
    else if b == [] then false
    else if a[0] == b[0] then Below(a[1..], b[1..])
    else a[0] < b[0]
  }

  lemma {:induction false} BelowIrreflexive(a: string)
    ensures !Below(a, a)
  {
    if a != [] {
      BelowIrreflexive(a[1..]);
    }
  }

  lemma {:induction false} BelowTransitive(a: string, b: string, c: string)
    requires Below(a, b) && Below(b, c)
    ensures Below(a, c)
  {
    if a != [] && b != [] && c != [] && a[0] == b[0] && b[0] == c[0] {
      BelowTransitive(a[1..], b[1..], c[1..]);
    }
  }

  lemma {:induction false} BelowTotal(a: string, b: string)
    ensures a == b || Below(a, b) || Below(b, a)
  {
    if a != [] && b != [] && a[0] == b[0] {
      BelowTotal(a[1..], b[1..]);
      if a[1..] == b[1..] {
        assert a == [a[0]] + a[1..] && b == [b[0]] + b[1..];
      }
    }
  }

  predicate StrictlySorted(s: seq<string>)
  {
    forall i, j :: 0 <= i < j < |s| ==> Below(s[i], s[j])
  }

  /** Insert a key into a strictly sorted key list, once. */
  function Insert(x: string, s: seq<string>): (r: seq<string>)
    requires StrictlySorted(s)
    ensures StrictlySorted(r)
    ensures forall k :: k in r <==> k in s || k == x
  {
    if s == [] then [x]
    else if x == s[0] then s
    else if Below(x, s[0]) then
      assert forall j :: 0 < j < |s| ==> Below(x, s[j]) by {
        forall j | 0 < j < |s| ensures Below(x, s[j]) { BelowTransitive(x, s[0], s[j]); }
      }
      [x] + s
    else
      BelowTotal(x, s[0]);
      var t := Insert(x, s[1..]);
      assert forall k :: k in t ==> Below(s[0], k) by {
        forall k | k in t ensures Below(s[0], k) {
          if k != x {
            var j :| 0 <= j < |s[1..]| && s[1..][j] == k;
            assert s[j + 1] == k;
          }
        }
      }
      var r := [s[0]] + t;
      assert forall k :: k in r <==> k == s[0] || k in t;
      assert forall k :: k in s <==> k == s[0] || k in s[1..] by {
        assert s == [s[0]] + s[1..];
      }
      r
  }

  /** The distinct keys of a column list in sorted order. */
  function SortedKeys(cols: seq<string>): (r: seq<string>)
    ensures StrictlySorted(r)
    ensures forall k :: k in r <==> k in cols
  {
    if cols == [] then []
    else
      var init, last := cols[..|cols| - 1], cols[|cols| - 1];
      assert forall k :: k in cols <==> k in init || k == last by {
        assert cols == init + [last];
      }
      Insert(last, SortedKeys(init))
  }

  /** A strictly sorted list is determined by its members. */
  lemma {:induction false} SortedUnique(a: seq<string>, b: seq<string>)
    requires StrictlySorted(a) && StrictlySorted(b)
    requires forall k :: k in a <==> k in b
    ensures a == b
  {
    if a != [] {
      assert a[0] in b;
    }
    if b != [] {
      assert b[0] in a;
    }
    if a != [] && b != [] {
      assert a[0] == b[0] by {
        assert b[0] in a && a[0] in b;
        if a[0] != b[0] {
          var i :| 0 <= i < |a| && a[i] == b[0];
          var j :| 0 <= j < |b| && b[j] == a[0];
          assert i > 0 && j > 0;
          BelowTransitive(a[0], b[0], a[0]);
          BelowIrreflexive(a[0]);
        }
      }
      forall k ensures k in a[1..] <==> k in b[1..] {
        if k in a[1..] {
          var i :| 0 <= i < |a[1..]| && a[1..][i] == k;
          assert a[i + 1] == k && Below(a[0], k);
          BelowIrreflexive(a[0]);
          assert k in b;
          var j :| 0 <= j < |b| && b[j] == k;
          assert j != 0;
          assert b[1..][j - 1] == k;
        }
        if k in b[1..] {
          var j :| 0 <= j < |b[1..]| && b[1..][j] == k;
          assert b[j + 1] == k && Below(b[0], k);
          BelowIrreflexive(b[0]);
          assert k in a;
          var i :| 0 <= i < |a| && a[i] == k;
          assert i != 0;
          assert a[1..][i - 1] == k;
        }
      }
      SortedUnique(a[1..], b[1..]);
      assert a == [a[0]] + a[1..] && b == [b[0]] + b[1..];
    }
  }

  /** The content columns: the table's columns that are not lineage. */
  function ContentColumns(cols: seq<string>): (r: seq<string>)
    ensures forall c :: c in r <==> c in cols && c !in ExcludeFromHash
  {
    if cols == [] then []
    else if cols[0] in ExcludeFromHash then ContentColumns(cols[1..])
    else [cols[0]] + ContentColumns(cols[1..])
  }

  /** The key-sorted entries that json.dumps(content_dict, sort_keys=True)
      serializes: each content column with the row's value (None when the
      row lacks it). */
  function SortedContent(row: Record, cols: seq<string>): seq<(string, Value)>
  {
    var keys := SortedKeys(ContentColumns(cols));
    seq(|keys|, i requires 0 <= i < |keys| => (keys[i], Get(row, keys[i])))
  }

  /** compute_record_hash_raw: the digest of the serialized content. */
  function RecordHashRaw(row: Record, cols: seq<string>, digest: seq<(string, Value)> -> string): string
  {
    digest(SortedContent(row, cols))
  }

  /** The serialized entries are sorted by key, name exactly the content
      columns, and carry the row's value (None for a column the row lacks). */
  lemma SortedContentShape(row: Record, cols: seq<string>)
    ensures var e := SortedContent(row, cols);
      && (forall i, j :: 0 <= i < j < |e| ==> Below(e[i].0, e[j].0))
      && (forall c :: (exists i :: 0 <= i < |e| && e[i].0 == c) <==> c in cols && c !in ExcludeFromHash)
      && (forall i :: 0 <= i < |e| ==> e[i].1 == Get(row, e[i].0))
      && (forall i :: 0 <= i < |e| && e[i].0 !in row ==> e[i].1 == Null)
  {
    var keys := SortedKeys(ContentColumns(cols));
    var e := SortedContent(row, cols);
    forall c ensures (exists i :: 0 <= i < |e| && e[i].0 == c) <==> c in cols && c !in ExcludeFromHash {
      if c in keys {
        var i :| 0 <= i < |keys| && keys[i] == c;
        assert e[i].0 == c;
      }
    }
  }

  /** Rows that agree on every column outside the lineage set hash alike: the
      run id, vendor, file, row number and ingestion time do not matter. */
  lemma HashIgnoresLineage(r1: Record, r2: Record, cols: seq<string>, digest: seq<(string, Value)> -> string)
    requires forall c :: c !in ExcludeFromHash ==> Get(r1, c) == Get(r2, c)
    ensures RecordHashRaw(r1, cols, digest) == RecordHashRaw(r2, cols, digest)
  {
    var keys := SortedKeys(ContentColumns(cols));
    assert forall i :: 0 <= i < |keys| ==> keys[i] !in ExcludeFromHash by {
      forall i | 0 <= i < |keys| ensures keys[i] !in ExcludeFromHash {
        assert keys[i] in keys;
      }
    }
    assert SortedContent(r1, cols) == SortedContent(r2, cols);
  }

  /** Keys that are not columns of the table never reach the hash. */
  lemma HashIgnoresOtherKeys(r1: Record, r2: Record, cols: seq<string>, digest: seq<(string, Value)> -> string)
    requires forall c :: c in cols ==> Get(r1, c) == Get(r2, c)
    ensures RecordHashRaw(r1, cols, digest) == RecordHashRaw(r2, cols, digest)
  {
    var keys := SortedKeys(ContentColumns(cols));
    assert forall i :: 0 <= i < |keys| ==> keys[i] in cols by {
      forall i | 0 <= i < |keys| ensures keys[i] in cols {
        assert keys[i] in keys;
      }
    }
    assert SortedContent(r1, cols) == SortedContent(r2, cols);
  }

  /** Listing the table's columns in another order, or repeating one, does not
      change the hash: the keys are sorted before serializing. */
  lemma HashIgnoresColumnOrder(row: Record, cols1: seq<string>, cols2: seq<string>, digest: seq<(string, Value)> -> string)
    requires forall c :: c in cols1 <==> c in cols2
    ensures RecordHashRaw(row, cols1, digest) == RecordHashRaw(row, cols2, digest)
  {
    SortedUnique(SortedKeys(ContentColumns(cols1)), SortedKeys(ContentColumns(cols2)));
  }
}
