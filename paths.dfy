/**
 * Field access by plain key or dotted path into nested objects
 * (get_by_path of the raw-ingest stage), with str.split('.') modelled
 * together with its inverse, '.'.join.
 */
module Paths {
  import opened Values

  /** str.split('.'): the pieces between the dots, in order. */
  function SplitDots(s: string): (parts: seq<string>)
    ensures |parts| >= 1
    ensures forall i :: 0 <= i < |parts| ==> '.' !in parts[i]
  {
    if s == [] then [""]
    else
      var rest := SplitDots(s[1..]);
      if s[0] == '.' then [""] + rest else [[s[0]] + rest[0]] + rest[1..]
  }

  /** '.'.join(parts). */
  function JoinDots(parts: seq<string>): string
    requires |parts| >= 1
  {
    if |parts| == 1 then parts[0] else parts[0] + "." + JoinDots(parts[1..])
  }

  /** Splitting then joining gives the path back. */
  lemma {:induction false} JoinSplit(s: string)
    ensures JoinDots(SplitDots(s)) == s
  {
    if s != [] {
      var rest := SplitDots(s[1..]);
      JoinSplit(s[1..]);
      if s[0] == '.' {
        assert SplitDots(s)[1..] == rest;
      } else {
        var parts := [[s[0]] + rest[0]] + rest[1..];
        if |rest| > 1 {
          assert parts[1..] == rest[1..];
          assert JoinDots(rest) == rest[0] + "." + JoinDots(rest[1..]);
        }
      }
    }
  }

  /** Joining dot-free pieces then splitting gives the pieces back. */
  lemma {:induction false} SplitJoin(parts: seq<string>)
    requires |parts| >= 1
    requires forall i :: 0 <= i < |parts| ==> '.' !in parts[i]
    ensures SplitDots(JoinDots(parts)) == parts
  {
    if |parts| == 1 {
      SplitOfDotFree(parts[0]);
    } else {
      SplitJoin(parts[1..]);
      SplitConcat(parts[0], JoinDots(parts[1..]));
      SplitOfDotFree(parts[0]);
      assert [parts[0]] + parts[1..] == parts;
    }
  }

  /** A path without a dot splits into itself alone. */
  lemma {:induction false} SplitOfDotFree(s: string)
    requires '.' !in s
    ensures SplitDots(s) == [s]
  {
    if s != [] {
      assert '.' !in s[1..] by {
        forall i | 0 <= i < |s[1..]| ensures s[1..][i] != '.' { assert s[1..][i] == s[i + 1]; }
      }
      SplitOfDotFree(s[1..]);
      assert [s[0]] + s[1..] == s;
    }
  }

  /** Splitting "a.b" gives the pieces of a followed by the pieces of b. */
  lemma {:induction false} SplitConcat(a: string, b: string)
    ensures SplitDots(a + "." + b) == SplitDots(a) + SplitDots(b)
  {
    if a == [] {
      assert a + "." + b == "." + b;
      assert ("." + b)[1..] == b;
    } else {
      assert (a + "." + b)[1..] == a[1..] + "." + b;
      SplitConcat(a[1..], b);
      var ra := SplitDots(a[1..]);
      if a[0] != '.' {
        assert ([[a[0]] + ra[0]] + ra[1..]) + SplitDots(b) == [[a[0]] + (ra + SplitDots(b))[0]] + (ra + SplitDots(b))[1..];
      }
    }
  }

  /** The loop of get_by_path: descend one key per piece; a value that is not
      an object on the way gives None, and so does a missing key. */
  function Walk(cur: Value, parts: seq<string>): Value
    decreases parts
  {
    if parts == [] then cur
    else if !cur.Obj? then Null
    else Walk(Get(cur.fields, parts[0]), parts[1..])
  }

  /** get_by_path(obj, path). */
  function Lookup(obj: Value, path: string): Value
  {
    if obj == Null then Null
    else if '.' !in path then (if obj.Obj? then Get(obj.fields, path) else Null)
    else Walk(obj, SplitDots(path))
  }

  /** get_by_path never fails, and it is None on None, on anything that is
      not an object, and on a plain key the object does not have. */
  lemma LookupNoneCases(obj: Value, path: string)
    ensures obj == Null ==> Lookup(obj, path) == Null
    ensures !obj.Obj? ==> Lookup(obj, path) == Null
    ensures obj.Obj? && '.' !in path && path !in obj.fields ==> Lookup(obj, path) == Null
  {
    if !obj.Obj? && '.' in path {
      assert SplitDots(path) != [];
    }
  }

  /** The plain-key shortcut agrees with walking the split path. */
  lemma LookupIsWalk(obj: Value, path: string)
    ensures Lookup(obj, path) == Walk(obj, SplitDots(path))
  {
    if '.' !in path {
      SplitOfDotFree(path);
    }
  }

  lemma {:induction false} WalkOfNull(parts: seq<string>)
    requires parts != []
    ensures Walk(Null, parts) == Null
  {
  }

  /** Walking p then q is walking p + q: a missing key or a non-object met
      on the first leg makes the whole walk None. */
  lemma {:induction false} WalkAppend(cur: Value, p: seq<string>, q: seq<string>)
    requires q != []
    ensures Walk(cur, p + q) == Walk(Walk(cur, p), q)
    decreases p
  {
    if p == [] {
      assert p + q == q;
    } else if !cur.Obj? {
      WalkOfNull(q);
    } else {
      assert (p + q)[1..] == p[1..] + q;
      WalkAppend(Get(cur.fields, p[0]), p[1..], q);
    }
  }

  /** A dotted path is a chain of lookups: get_by_path(o, "a.b") ==
      get_by_path(get_by_path(o, "a"), "b"). */
  lemma LookupChain(obj: Value, a: string, b: string)
    ensures Lookup(obj, a + "." + b) == Lookup(Lookup(obj, a), b)
  {
    LookupIsWalk(obj, a + "." + b);
    LookupIsWalk(obj, a);
    LookupIsWalk(Lookup(obj, a), b);
    SplitConcat(a, b);
    WalkAppend(obj, SplitDots(a), SplitDots(b));
  }

  /** get_by_path as the source writes it: the plain-key shortcut, then a
      loop that walks cur down the split path. */
  method GetByPath(obj: Value, path: string) returns (r: Value)
    ensures r == Lookup(obj, path)
  {
    if obj == Null {
      return Null;
    }
    if '.' !in path {
      r := if obj.Obj? then Get(obj.fields, path) else Null;
      return;
    }
    var parts := SplitDots(path);
    var cur := obj;
    var i := 0;
    while i < |parts|
      invariant 0 <= i <= |parts|
      invariant Walk(cur, parts[i..]) == Walk(obj, parts)
    {
      if !cur.Obj? {
        return Null;
      }
      assert parts[i..][1..] == parts[i + 1..];
      cur := Get(cur.fields, parts[i]);
      i := i + 1;
    }
    r := cur;
  }
}
