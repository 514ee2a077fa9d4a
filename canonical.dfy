/**
 * The canonicalization engine of the raw-ingest stage: a small interpreter
 * that applies a vendor's constants, mapping, nulls, derivations and
 * extra_payload rules, in that order, to one raw record.
 */
module Canonical {
  import opened Wrappers
  import opened Text
  import opened Values
  import opened Paths
  import opened VendorConfigs

  const ExtraPayloadKey: string := "extra_payload"

  /** join_ymd_to_string: None if any part is None, otherwise
      str(year).zfill(4) + "-" + str(month).zfill(2) + "-" + str(day).zfill(2). */
  function JoinYmd(year: Value, month: Value, day: Value): (r: Value)
    ensures r == Null <==> year == Null || month == Null || day == Null
    ensures r != Null ==> r.Str? && |r.s| >= 10
  {
    if year == Null || month == Null || day == Null then Null
    else Str(ZFill(AsText(year), 4) + "-" + ZFill(AsText(month), 2) + "-" + ZFill(AsText(day), 2))
  }

  lemma {:induction false} NatTextFits(n: nat, width: nat)
    requires width >= 1 && n < Pow10(width)
    ensures |NatText(n)| <= width
  {
    if n >= 10 {
      NatTextFits(n / 10, width - 1);
    }
  }

  lemma {:induction false} PaddedZero(width: nat)
    ensures PaddedDigits(0, width) == Zeros(width)
  {
    if width > 0 {
      PaddedZero(width - 1);
    }
  }

  lemma Pow10Small()
    ensures Pow10(2) == 100 && Pow10(4) == 10000
  {
    assert Pow10(1) == 10;
    assert Pow10(3) == 1000;
  }

  /** zfill of a natural number's decimal text is its fixed-width rendering. */
  lemma {:induction false} ZFillNatText(n: nat, width: nat)
    requires width >= 1 && n < Pow10(width)
    ensures ZFill(NatText(n), width) == PaddedDigits(n, width)
  {
    NatTextFits(n, width);
    if n < 10 {
      PaddedZero(width - 1);
    } else {
      ZFillNatText(n / 10, width - 1);
      NatTextFits(n / 10, width - 1);
      var t := NatText(n / 10);
      assert Zeros(width - |t| - 1) + t + [DigitChar(n % 10)]
          == (Zeros((width - 1) - |t|) + t) + [DigitChar(n % 10)];
    }
  }

  lemma JoinYmdOfNumbers(y: nat, m: nat, d: nat)
    requires y < 10000 && m < 100 && d < 100
    ensures JoinYmd(Num(y), Num(m), Num(d))
      == Str(PaddedDigits(y, 4) + "-" + PaddedDigits(m, 2) + "-" + PaddedDigits(d, 2))
  {
    Pow10Small();
    ZFillNatText(y, 4);
    ZFillNatText(m, 2);
    ZFillNatText(d, 2);
  }

  /** For numeric parts that fit their widths the derived value is the
      fixed layout YYYY-MM-DD, and each number can be read back from its
      slice; no calendar check is made (month 13 or day 31 pass through). */
  lemma JoinYmdLayout(y: nat, m: nat, d: nat)
    requires y < 10000 && m < 100 && d < 100
    ensures JoinYmd(Num(y), Num(m), Num(d)).Str?
    ensures var s := JoinYmd(Num(y), Num(m), Num(d)).s;
      && |s| == 10 && s[4] == '-' && s[7] == '-'
      && (forall i :: 0 <= i < 10 && i != 4 && i != 7 ==> IsDigit(s[i]))
      && DigitsValue(s[..4]) == y && DigitsValue(s[5..7]) == m && DigitsValue(s[8..]) == d
  {
    JoinYmdOfNumbers(y, m, d);
    PaddedLayout(y, m, d);
  }

  lemma PaddedLayout(y: nat, m: nat, d: nat)
    requires y < 10000 && m < 100 && d < 100
    ensures var s := PaddedDigits(y, 4) + "-" + PaddedDigits(m, 2) + "-" + PaddedDigits(d, 2);
      && |s| == 10 && s[4] == '-' && s[7] == '-'
      && (forall i :: 0 <= i < 10 && i != 4 && i != 7 ==> IsDigit(s[i]))
      && DigitsValue(s[..4]) == y && DigitsValue(s[5..7]) == m && DigitsValue(s[8..]) == d
  {
    var a, b, c := PaddedDigits(y, 4), PaddedDigits(m, 2), PaddedDigits(d, 2);
    var s := a + "-" + b + "-" + c;
    assert s[..4] == a;
    assert s[5..7] == b;
    assert s[8..] == c;
    Pow10Small();
    PaddedDigitsRoundTrip(y, 4);
    PaddedDigitsRoundTrip(m, 2);
    PaddedDigitsRoundTrip(d, 2);
  }

  /** Text already wider than its slot is kept whole, not truncated. */
  lemma JoinYmdKeepsWideParts()
    ensures JoinYmd(Str("12345"), Str("123"), Num(7)) == Str("12345-123-07")
  {
    assert ZFill("12345", 4) == "12345";
    assert ZFill("123", 2) == "123";
    assert AsText(Num(7)) == "7";
    assert ZFill("7", 2) == "07";
  }

  /** A sign stays in front of the padding, and text parts are padded as
      they are, with no calendar check. */
  lemma JoinYmdSignedAndText()
    ensures JoinYmd(Num(-5), Str("3"), Str("x")) == Str("-005-03-0x")
  {
    assert AsText(Num(-5)) == "-5";
    assert ZFill("-5", 4) == "-005";
    assert ZFill("3", 2) == "03";
    assert ZFill("x", 2) == "0x";
  }

  /** The targets of the derivations whose type is join_ymd_to_string. */
  function JoinTargets(cfg: VendorConfig): set<string>
  {
    set t | t in cfg.derivations && cfg.derivations[t].kind == Some(JoinYmdKind)
  }

  /** Every join derivation names its year, month and day paths (otherwise
      the source raises KeyError while building the first row). */
  predicate DerivationsComplete(cfg: VendorConfig)
  {
    forall t :: t in JoinTargets(cfg) ==>
      cfg.derivations[t].year.Some? && cfg.derivations[t].month.Some? && cfg.derivations[t].day.Some?
  }

  /** The value a complete join derivation assigns for one raw record. */
  function JoinOf(spec: Derivation, raw: Value): Value
    requires spec.year.Some? && spec.month.Some? && spec.day.Some?
  {
    JoinYmd(Lookup(raw, spec.year.value), Lookup(raw, spec.month.value), Lookup(raw, spec.day.value))
  }

  function Derived(cfg: VendorConfig, raw: Value, t: string): Value
    requires DerivationsComplete(cfg) && t in JoinTargets(cfg)
  {
    JoinOf(cfg.derivations[t], raw)
  }

  /** The extra_payload blob: each listed source path and its value. */
  function ExtraBlob(paths: seq<string>, raw: Value): map<string, Value>
  {
    map p | p in paths :: Lookup(raw, p)
  }

  /** Step 2: each mapped target gets the value at its source path. */
  function MappingStep(cfg: VendorConfig, raw: Value, out: Record): Record
  {
    out + map k | k in cfg.mapping :: Lookup(raw, cfg.mapping[k])
  }

  /** Step 3: each key listed under nulls is forced to None. */
  function NullsStep(cfg: VendorConfig, out: Record): Record
  {
    out + map k | k in cfg.nulls :: Null
  }

  /** Step 4: each join derivation target gets its assembled date string. */
  function DerivationsStep(cfg: VendorConfig, raw: Value, out: Record): Record
    requires DerivationsComplete(cfg)
  {
    out + map t | t in JoinTargets(cfg) :: Derived(cfg, raw, t)
  }

  /** Step 5: a non-empty extra_payload list adds the blob. */
  function ExtraPayloadStep(cfg: VendorConfig, raw: Value, out: Record): Record
  {
    if |cfg.extraPayload| > 0 then out[ExtraPayloadKey := Obj(ExtraBlob(cfg.extraPayload, raw))] else out
  }

  /** The canonical content built from one raw record: the five steps in
      order, each overwriting the keys it touches. */
  function CanonicalContent(cfg: VendorConfig, raw: Value): Record
    requires DerivationsComplete(cfg)
  {
    ExtraPayloadStep(cfg, raw, DerivationsStep(cfg, raw, NullsStep(cfg, MappingStep(cfg, raw, cfg.constants))))
  }

  /** build_canonical_row: the canonical content, or the KeyError of an
      incomplete join derivation. */
  function Canonicalize(cfg: VendorConfig, raw: Value): (r: Result<Record, IngestError>)
  {
    if DerivationsComplete(cfg) then Success(CanonicalContent(cfg, raw)) else Failure(MalformedDerivation)
  }

  /** A row fails exactly when some join derivation lacks year, month or
      day, and then with the malformed-derivation error. */
  lemma CanonicalizeOutcome(cfg: VendorConfig, raw: Value)
    ensures Canonicalize(cfg, raw).Success? <==> DerivationsComplete(cfg)
    ensures Canonicalize(cfg, raw).Failure? ==> Canonicalize(cfg, raw).error == MalformedDerivation
  {
  }

  /** The key set of a canonical row: the keys of constants, mapping, nulls
      and the join derivations, plus extra_payload when the list is
      non-empty; the blob holds exactly the listed paths. */
  lemma CanonicalKeys(cfg: VendorConfig, raw: Value)
    requires DerivationsComplete(cfg)
    ensures CanonicalContent(cfg, raw).Keys
      == cfg.constants.Keys + cfg.mapping.Keys + cfg.nulls + JoinTargets(cfg)
         + (if |cfg.extraPayload| > 0 then {ExtraPayloadKey} else {})
    ensures |cfg.extraPayload| > 0 ==>
      && CanonicalContent(cfg, raw)[ExtraPayloadKey].Obj?
      && CanonicalContent(cfg, raw)[ExtraPayloadKey].fields.Keys == set p | p in cfg.extraPayload
  {
  }

  /** The value of each canonical key is set by the last step that touches
      it: a join derivation beats nulls, a null beats the mapping, the
      mapping beats a constant. */
  lemma CanonicalPrecedence(cfg: VendorConfig, raw: Value, k: string)
    requires DerivationsComplete(cfg)
    requires k != ExtraPayloadKey || |cfg.extraPayload| == 0
    ensures var r := CanonicalContent(cfg, raw);
      && (k in JoinTargets(cfg) ==> r[k] == Derived(cfg, raw, k))
      && (k !in JoinTargets(cfg) && k in cfg.nulls ==> r[k] == Null)
      && (k !in JoinTargets(cfg) && k !in cfg.nulls && k in cfg.mapping ==> r[k] == Lookup(raw, cfg.mapping[k]))
      && (k !in JoinTargets(cfg) && k !in cfg.nulls && k !in cfg.mapping && k in cfg.constants ==> r[k] == cfg.constants[k])
  {
  }

  /** A derivation whose type is not join_ymd_to_string changes nothing. */
  lemma OtherDerivationsIgnored(cfg: VendorConfig, raw: Value, t: string, d: Derivation)
    requires DerivationsComplete(cfg)
    requires d.kind != Some(JoinYmdKind) && t !in JoinTargets(cfg)
    ensures var cfg' := cfg.(derivations := cfg.derivations[t := d]);
      DerivationsComplete(cfg') && CanonicalContent(cfg', raw) == CanonicalContent(cfg, raw)
  {
    var cfg' := cfg.(derivations := cfg.derivations[t := d]);
    forall u ensures u in JoinTargets(cfg') <==> u in JoinTargets(cfg) {
      if u == t {
        assert u !in JoinTargets(cfg');
      } else if u in cfg.derivations {
        assert cfg'.derivations[u] == cfg.derivations[u];
      }
    }
    assert JoinTargets(cfg') == JoinTargets(cfg);
    assert DerivationsComplete(cfg') by {
      forall u | u in JoinTargets(cfg') ensures cfg'.derivations[u] == cfg.derivations[u] {
      }
    }
    var pre := NullsStep(cfg, MappingStep(cfg, raw, cfg.constants));
    assert NullsStep(cfg', MappingStep(cfg', raw, cfg'.constants)) == pre;
    DerivationsStepAgree(cfg', cfg, raw, pre);
  }

  lemma DerivationsStepAgree(c1: VendorConfig, c2: VendorConfig, raw: Value, pre: Record)
    requires DerivationsComplete(c1) && DerivationsComplete(c2)
    requires JoinTargets(c1) == JoinTargets(c2)
    requires forall u :: u in JoinTargets(c1) ==> c1.derivations[u] == c2.derivations[u]
    requires c1.extraPayload == c2.extraPayload
    ensures ExtraPayloadStep(c1, raw, DerivationsStep(c1, raw, pre)) == ExtraPayloadStep(c2, raw, DerivationsStep(c2, raw, pre))
  {
    JoinMapsAgree(c1, c2, raw);
  }

  lemma JoinMapsAgree(c1: VendorConfig, c2: VendorConfig, raw: Value)
    requires DerivationsComplete(c1) && DerivationsComplete(c2)
    requires JoinTargets(c1) == JoinTargets(c2)
    requires forall u :: u in JoinTargets(c1) ==> c1.derivations[u] == c2.derivations[u]
    ensures (map t | t in JoinTargets(c1) :: Derived(c1, raw, t)) == (map t | t in JoinTargets(c2) :: Derived(c2, raw, t))
  {
    var m1 := map t | t in JoinTargets(c1) :: Derived(c1, raw, t);
    var m2 := map t | t in JoinTargets(c2) :: Derived(c2, raw, t);
    assert m1.Keys == m2.Keys;
    forall t | t in m1 ensures m1[t] == m2[t] {
      assert c1.derivations[t] == c2.derivations[t];
    }
  }

  /** Setting a key after a merge is setting it in the overriding map. */
  lemma UpdateMerged(base: Record, over: Record, k: string, v: Value)
    ensures (base + over)[k := v] == base + over[k := v]
  {
  }

  method ApplyConstants(cfg: VendorConfig) returns (out: Record)
    ensures out == cfg.constants
  {
    out := map[];
    var todo := cfg.constants.Keys;
    while todo != {}
      invariant todo <= cfg.constants.Keys
      invariant out == map k | k in cfg.constants.Keys - todo :: cfg.constants[k]
      decreases todo
    {
      var k :| k in todo;
      out := out[k := cfg.constants[k]];
      todo := todo - {k};
    }
  }

  method ApplyMapping(cfg: VendorConfig, raw: Value, base: Record) returns (out: Record)
    ensures out == MappingStep(cfg, raw, base)
  {
    out := base;
    ghost var mapped: map<string, Value> := map[];
    var todo := cfg.mapping.Keys;
    while todo != {}
      invariant todo <= cfg.mapping.Keys
      invariant forall k :: k in mapped <==> k in cfg.mapping && k !in todo
      invariant forall k :: k in mapped ==> mapped[k] == Lookup(raw, cfg.mapping[k])
      invariant out == base + mapped
      decreases todo
    {
      var k :| k in todo;
      var v := GetByPath(raw, cfg.mapping[k]);
      UpdateMerged(base, mapped, k, v);
      out := out[k := v];
      mapped := mapped[k := v];
      todo := todo - {k};
    }
    assert mapped == map k | k in cfg.mapping :: Lookup(raw, cfg.mapping[k]);
  }

  method ApplyNulls(cfg: VendorConfig, base: Record) returns (out: Record)
    ensures out == NullsStep(cfg, base)
  {
    out := base;
    ghost var nulled: map<string, Value> := map[];
    var todo := cfg.nulls;
    while todo != {}
      invariant todo <= cfg.nulls
      invariant forall k :: k in nulled <==> k in cfg.nulls && k !in todo
      invariant forall k :: k in nulled ==> nulled[k] == Null
      invariant out == base + nulled
      decreases todo
    {
      var k :| k in todo;
      UpdateMerged(base, nulled, k, Null);
      out := out[k := Null];
      nulled := nulled[k := Null];
      todo := todo - {k};
    }
    assert nulled == map k | k in cfg.nulls :: Null;
  }

  /** One entry of the derivations loop: nothing for a type other than
      join_ymd_to_string, the KeyError of a missing path, or the value. */
  method DeriveOne(spec: Derivation, raw: Value) returns (r: Result<Option<Value>, IngestError>)
    ensures spec.kind != Some(JoinYmdKind) ==> r == Success(None)
    ensures spec.kind == Some(JoinYmdKind) && (spec.year.None? || spec.month.None? || spec.day.None?)
      ==> r == Failure(MalformedDerivation)
    ensures spec.kind == Some(JoinYmdKind) && spec.year.Some? && spec.month.Some? && spec.day.Some?
      ==> r == Success(Some(JoinOf(spec, raw)))
  {
    if spec.kind != Some(JoinYmdKind) {
      return Success(None);
    }
    if spec.year.None? || spec.month.None? || spec.day.None? {
      return Failure(MalformedDerivation);
    }
    var y := GetByPath(raw, spec.year.value);
    var m := GetByPath(raw, spec.month.value);
    var d := GetByPath(raw, spec.day.value);
    r := Success(Some(JoinYmd(y, m, d)));
  }

  method ApplyDerivations(cfg: VendorConfig, raw: Value, base: Record) returns (r: Result<Record, IngestError>)
    ensures DerivationsComplete(cfg) ==> r == Success(DerivationsStep(cfg, raw, base))
    ensures !DerivationsComplete(cfg) ==> r == Failure(MalformedDerivation)
  {
    var out := base;
    var todo := cfg.derivations.Keys;
    ghost var derived: map<string, Value> := map[];
    while todo != {}
      invariant todo <= cfg.derivations.Keys
      invariant forall t :: t in derived <==> t in cfg.derivations && t !in todo && cfg.derivations[t].kind == Some(JoinYmdKind)
      invariant forall t :: t in derived ==>
        && cfg.derivations[t].year.Some? && cfg.derivations[t].month.Some? && cfg.derivations[t].day.Some?
        && derived[t] == JoinOf(cfg.derivations[t], raw)
      invariant out == base + derived
      decreases todo
    {
      var t :| t in todo;
      var one := DeriveOne(cfg.derivations[t], raw);
      if one.Failure? {
        assert t in JoinTargets(cfg);
        return Failure(one.error);
      }
      if one.value.Some? {
        UpdateMerged(base, derived, t, one.value.value);
        out := out[t := one.value.value];
        derived := derived[t := one.value.value];
      }
      todo := todo - {t};
    }
    AllDerived(cfg, raw, derived);
    r := Success(out);
  }

  /** Once every derivation has been visited, the assembled values are those
      of the derivations step. */
  lemma AllDerived(cfg: VendorConfig, raw: Value, derived: map<string, Value>)
    requires forall t :: t in derived <==> t in cfg.derivations && cfg.derivations[t].kind == Some(JoinYmdKind)
    requires forall t :: t in derived ==>
      && cfg.derivations[t].year.Some? && cfg.derivations[t].month.Some? && cfg.derivations[t].day.Some?
      && derived[t] == JoinOf(cfg.derivations[t], raw)
    ensures DerivationsComplete(cfg)
    ensures derived == map t | t in JoinTargets(cfg) :: Derived(cfg, raw, t)
  {
    assert derived.Keys == JoinTargets(cfg);
  }

  method ApplyExtraPayload(cfg: VendorConfig, raw: Value, base: Record) returns (out: Record)
    ensures out == ExtraPayloadStep(cfg, raw, base)
  {
    out := base;
    if |cfg.extraPayload| > 0 {
      var blob: map<string, Value> := map[];
      var i := 0;
      while i < |cfg.extraPayload|
        invariant 0 <= i <= |cfg.extraPayload|
        invariant blob == map p | p in cfg.extraPayload[..i] :: Lookup(raw, p)
      {
        var v := GetByPath(raw, cfg.extraPayload[i]);
        assert cfg.extraPayload[..i + 1] == cfg.extraPayload[..i] + [cfg.extraPayload[i]];
        blob := blob[cfg.extraPayload[i] := v];
        i := i + 1;
      }
      assert cfg.extraPayload[..i] == cfg.extraPayload;
      out := out[ExtraPayloadKey := Obj(blob)];
    }
  }

  /** build_canonical_row as the source writes it: fill `out` step by step. */
  method BuildCanonicalRow(cfg: VendorConfig, raw: Value) returns (r: Result<Record, IngestError>)
    ensures r == Canonicalize(cfg, raw)
  {
    var out := ApplyConstants(cfg);
    out := ApplyMapping(cfg, raw, out);
    out := ApplyNulls(cfg, out);
    var derived := ApplyDerivations(cfg, raw, out);
    if derived.Failure? {
      return Failure(derived.error);
    }
    out := ApplyExtraPayload(cfg, raw, derived.value);
    r := Success(out);
  }
}
