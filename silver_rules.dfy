/**
 * The per-row normalization rules of the silver stage: name cleaning, the
 * per-vendor date of birth parse and the per-vendor relationship mapping.
 * Text is ASCII: casefold and lower agree there.
 */
module SilverRules {
  import opened Wrappers
  import opened Text
  import opened Values

  // ---------------------------------------------------------------------
  // Names
  // ---------------------------------------------------------------------

  /** The regex substitution [^a-z0-9] -> "": keep the lower-case letters
      and digits, in order, and drop every other character. */
  function KeepLowerAlnum(s: string): (r: string)
    ensures |r| <= |s|
    ensures forall i :: 0 <= i < |r| ==> IsLowerAlnum(r[i])
  {
    if s == [] then []
    else (if IsLowerAlnum(s[0]) then [s[0]] else []) + KeepLowerAlnum(s[1..])
  }

  /** Filtering distributes over concatenation. */
  lemma {:induction false} KeepLowerAlnumAppend(a: string, b: string)
    ensures KeepLowerAlnum(a + b) == KeepLowerAlnum(a) + KeepLowerAlnum(b)
  {
    if a != [] {
      assert (a + b)[1..] == a[1..] + b;
      KeepLowerAlnumAppend(a[1..], b);
    } else {
      assert a + b == b;
    }
  }

  /** A text made only of lower-case letters and digits passes unchanged,
      and any other character is removed. */
  lemma {:induction false} KeepLowerAlnumExact(s: string)
    ensures KeepLowerAlnum(s) == s <==> forall i :: 0 <= i < |s| ==> IsLowerAlnum(s[i])
  {
    if s != [] {
      KeepLowerAlnumExact(s[1..]);
      if !IsLowerAlnum(s[0]) {
        assert |KeepLowerAlnum(s)| < |s|;
      }
    }
  }

  /** A single character is kept exactly when it is a lower-case letter or
      a digit; with KeepLowerAlnumAppend this fixes the filter on every text. */
  lemma KeepLowerAlnumSingle(c: char)
    ensures KeepLowerAlnum([c]) == if IsLowerAlnum(c) then [c] else []
  {
    assert [c][1..] == [];
  }

  /** clean_name on one cell: str(v), casefold, drop everything outside
      [a-z0-9], strip. */
  function CleanName(v: Value): (r: string)
    ensures forall i :: 0 <= i < |r| ==> IsLowerAlnum(r[i])
  {
    Strip(KeepLowerAlnum(Lower(AsText(v))))
  }

  /** The final strip never removes anything: no whitespace survives the
      filter. */
  lemma CleanNameStripIsNoop(v: Value)
    ensures CleanName(v) == KeepLowerAlnum(Lower(AsText(v)))
  {
    var k := KeepLowerAlnum(Lower(AsText(v)));
    StripOfTrimmed(k);
  }

  /** The cleaned text is the filtered, lower-cased rendering. */
  lemma CleanNameVia(v: Value, kept: string)
    requires KeepLowerAlnum(Lower(AsText(v))) == kept
    ensures CleanName(v) == kept
  {
    CleanNameStripIsNoop(v);
  }

  /** A lower-case alphanumeric text is a fixed point of the cleaning. */
  lemma CleanNameOfClean(s: string)
    requires forall i :: 0 <= i < |s| ==> IsLowerAlnum(s[i])
    ensures CleanName(Str(s)) == s
  {
    assert Lower(s) == s;
    KeepLowerAlnumExact(s);
    StripOfTrimmed(s);
  }

  /** Cleaning is idempotent. */
  lemma CleanNameIdempotent(v: Value)
    ensures CleanName(Str(CleanName(v))) == CleanName(v)
  {
    CleanNameOfClean(CleanName(v));
  }

  /** A missing name is rendered "None" before cleaning, so it cleans to
      "none". */
  lemma CleanNameOfNone()
    ensures CleanName(Null) == "none"
  {
    assert Lower("None") == "none";
    KeepLowerAlnumExact("none");
    CleanNameVia(Null, "none");
  }

  /** An apostrophe and a trailing space vanish. */
  lemma CleanNameExample()
    ensures CleanName(Str("O'Brien ")) == "obrien"
  {
    FilterOBrien();
    CleanNameVia(Str("O'Brien "), "obrien");
  }

  lemma FilterOBrien()
    ensures KeepLowerAlnum(Lower("O'Brien ")) == "obrien"
  {
    LowerOBrien();
    KeepOBrien();
  }

  lemma KeepOBrien()
    ensures KeepLowerAlnum("o'brien ") == "obrien"
  {
    KeepLowerAlnumCons(' ', "");
    KeepLowerAlnumCons('n', " ");
    KeepLowerAlnumCons('e', "n ");
    KeepLowerAlnumCons('i', "en ");
    KeepLowerAlnumCons('r', "ien ");
    KeepLowerAlnumCons('b', "rien ");
    KeepLowerAlnumCons('\'', "brien ");
    KeepLowerAlnumCons('o', "'brien ");
  }

  /** The filter on a character followed by a text. */
  lemma KeepLowerAlnumCons(c: char, s: string)
    ensures KeepLowerAlnum([c] + s) == (if IsLowerAlnum(c) then [c] else []) + KeepLowerAlnum(s)
  {
    assert ([c] + s)[1..] == s;
  }

  lemma LowerOBrien()
    ensures Lower("O'Brien ") == "o'brien "
  {
  }

  // ---------------------------------------------------------------------

  /** The sentinel for a code with no mapping. */
  const Other: string := "OTHER"

  /** The lookup key of a raw code: str(v), lower-cased, then stripped. */
  function RelationshipKey(code: Value): (r: string)
    ensures r == [] || (!IsSpace(r[0]) && !IsSpace(r[|r| - 1]))
    ensures forall i :: 0 <= i < |r| ==> !('A' <= r[i] <= 'Z')
  {
    var lower := Lower(AsText(code));
    StripKeeps(lower, c => !('A' <= c <= 'Z'));
    Strip(lower)
  }

  /** relationship_norm of one row: the vendor's mapping of the row's key,
      and OTHER when the vendor has no mapping or the key is not in it. */
  function NormalizeRelationship(relMaps: map<string, map<string, string>>, row: Record): (r: string)
    ensures var v := Get(row, "source_vendor");
      && (!(v.Str? && v.s in relMaps) ==> r == Other)
      && (v.Str? && v.s in relMaps ==>
            var key := RelationshipKey(Get(row, "relationship_raw"));
            r == if key in relMaps[v.s] then relMaps[v.s][key] else Other)
  {
    match Get(row, "source_vendor")
    case Str(vendor) =>
      if vendor in relMaps then
        var key := RelationshipKey(Get(row, "relationship_raw"));
        if key in relMaps[vendor] then relMaps[vendor][key] else Other
      else Other
    case _ => Other
  }

  /** The result is always a label of the row's vendor or OTHER. */
  lemma RelationshipVocabulary(relMaps: map<string, map<string, string>>, row: Record)
    ensures var r := NormalizeRelationship(relMaps, row);
      var v := Get(row, "source_vendor");
      r == Other || (v.Str? && v.s in relMaps && r in relMaps[v.s].Values)
  {
    var r := NormalizeRelationship(relMaps, row);
    var v := Get(row, "source_vendor");
    if v.Str? && v.s in relMaps && r != Other {
      var key := RelationshipKey(Get(row, "relationship_raw"));
      assert key in relMaps[v.s] && r == relMaps[v.s][key];
    }
  }

  /** Lookup ignores case and surrounding whitespace. */
  lemma RelationshipKeyIgnoresCaseAndPadding(pre: string, code: string, post: string)
    requires AllSpace(pre) && AllSpace(post)
    ensures RelationshipKey(Str(pre + code + post)) == RelationshipKey(Str(Lower(code)))
  {
    LowerAppend(pre + code, post);
    LowerAppend(pre, code);
    LowerOfSpace(pre);
    LowerOfSpace(post);
    StripIgnoresPadding(pre, Lower(code), post);
    assert Lower(Lower(code)) == Lower(code);
  }

  /** A row's relationship label depends only on its vendor and its code's
      lookup key. */
  lemma RelationshipByKey(relMaps: map<string, map<string, string>>, r1: Record, r2: Record)
    requires Get(r1, "source_vendor") == Get(r2, "source_vendor")
    requires RelationshipKey(Get(r1, "relationship_raw")) == RelationshipKey(Get(r2, "relationship_raw"))
    ensures NormalizeRelationship(relMaps, r1) == NormalizeRelationship(relMaps, r2)
  {
  }

  // ---------------------------------------------------------------------
  // Dates
  // ---------------------------------------------------------------------

  /** A date parse format once compiled the way strptime compiles it: each
      directive is one regex group, a run of whitespace is \s+, and every
      other character matches itself, ignoring case. */
  datatype Directive = YearField | MonthField | DayField | Whitespace | Literal(c: char)

  /** The directives that become a named regex group. */
  predicate IsField(d: Directive)
  {
    d.YearField? || d.MonthField? || d.DayField?
  }

  /** Two positions of the list hold the same field directive. */
  predicate SomeFieldTwice(ds: seq<Directive>)
  {
    exists i, j :: 0 <= i < j < |ds| && IsField(ds[i]) && ds[i] == ds[j]
  }

  /** Whether some field directive occurs again later in the list. */
  function FieldRepeated(ds: seq<Directive>): bool
  {
    ds != [] && ((IsField(ds[0]) && ds[0] in ds[1..]) || FieldRepeated(ds[1..]))
  }

  lemma {:induction false} FieldRepeatedIff(ds: seq<Directive>)
    ensures FieldRepeated(ds) <==> SomeFieldTwice(ds)
  {
    if ds != [] {
      FieldRepeatedIff(ds[1..]);
      if FieldRepeated(ds) {
        if IsField(ds[0]) && ds[0] in ds[1..] {
          var j :| 0 <= j < |ds[1..]| && ds[1..][j] == ds[0];
          assert 0 < j + 1 < |ds| && ds[0] == ds[j + 1];
        } else {
          var i, j :| 0 <= i < j < |ds[1..]| && IsField(ds[1..][i]) && ds[1..][i] == ds[1..][j];
          assert ds[i + 1] == ds[1..][i] && ds[j + 1] == ds[1..][j];
        }
      }
      if exists i, j :: 0 <= i < j < |ds| && IsField(ds[i]) && ds[i] == ds[j] {
        var i, j :| 0 <= i < j < |ds| && IsField(ds[i]) && ds[i] == ds[j];
        if i == 0 {
          assert ds[1..][j - 1] == ds[0];
        } else {
          assert ds[1..][i - 1] == ds[i] && ds[1..][j - 1] == ds[j];
        }
      }
    }
  }

  /** Compile a format string the way strptime does: the directives %Y,
      %m, %d and %% are modelled, any other directive gives None, and so
      does a field directive used twice (its regex group would be defined
      twice). */
  function CompileFormat(fmt: string): (r: Option<seq<Directive>>)
    ensures r.Some? ==> CompileDirectives(fmt) == r
    ensures r.Some? ==> forall i, j :: 0 <= i < j < |r.value| && IsField(r.value[i]) ==> r.value[i] != r.value[j]
    ensures r.None? && CompileDirectives(fmt).Some? ==> SomeFieldTwice(CompileDirectives(fmt).value)
  {
    var compiled := CompileDirectives(fmt);
    if compiled.None? then None
    else
      var ds := compiled.value;
      FieldRepeatedIff(ds);
      if FieldRepeated(ds) then None
      else
        assert forall i, j :: 0 <= i < j < |ds| && IsField(ds[i]) ==> ds[i] != ds[j];
        compiled
  }

  /** A repeated field directive is rejected. */
  lemma RepeatedYearRejected()
    ensures CompileFormat("%Y-%Y") == None
  {
    var f := "%Y-%Y";
    assert f[2..][1..] == f[3..] && f[3..][2..] == [];
    assert CompileDirectives(f[3..]) == Some([YearField]) by {
      assert [YearField] + [] == [YearField];
    }
    assert CompileDirectives(f[2..]) == Some([Literal('-'), YearField]) by {
      assert [Literal('-')] + [YearField] == [Literal('-'), YearField];
    }
    assert CompileDirectives(f) == Some([YearField, Literal('-'), YearField]) by {
      assert [YearField] + [Literal('-'), YearField] == [YearField, Literal('-'), YearField];
    }
    var ds := [YearField, Literal('-'), YearField];
    assert IsField(ds[0]) && ds[0] == ds[2];
    FieldRepeatedIff(ds);
  }

  /** The directives of a format string, one per directive, run of
      whitespace or other character, before the repeat check. */
  function CompileDirectives(fmt: string): (r: Option<seq<Directive>>)
    decreases |fmt|
  {
    if fmt == [] then Some([])
    else if fmt[0] == '%' then
      if |fmt| < 2 then None
      else
        var head :=
          if fmt[1] == 'Y' then Some(YearField)
          else if fmt[1] == 'm' then Some(MonthField)
          else if fmt[1] == 'd' then Some(DayField)
          else if fmt[1] == '%' then Some(Literal('%'))
          else None;
        match (head, CompileDirectives(fmt[2..]))
        case (Some(d), Some(rest)) => Some([d] + rest)
        case _ => None
    else if IsSpace(fmt[0]) then
      match CompileDirectives(StripLeft(fmt))
      case Some(rest) => Some([Whitespace] + rest)
      case None => None
    else
      match CompileDirectives(fmt[1..])
      case Some(rest) => Some([Literal(fmt[0])] + rest)
      case None => None
  }

  /** The field a regex group sets. */
  datatype Setting = SetYear(year: nat) | SetMonth(month: nat) | SetDay(day: nat) | SetNothing

  /** One way a group can match at the front of the text: its length and the
      field it sets. */
  datatype Step = Step(len: nat, setting: Setting)

  /** The fields a match found (a field the format does not name is None). */
  datatype Fields = Fields(year: Option<nat>, month: Option<nat>, day: Option<nat>)

  /** A match at the front of the text: the fields and the length matched. */
  datatype Match = Match(fields: Fields, consumed: nat)

  predicate IsNonZeroDigit(c: char) { '1' <= c <= '9' }

  /** The value of a digit character (the regex only reaches it on a
      digit). */
  function Digit(c: char): (v: nat)
    ensures v < 10
  {
    if IsDigit(c) then DigitValue(c) else 0
  }

  /** The value of the two characters at the front of s. */
  function Two(s: string): (v: nat)
    requires |s| >= 2
    ensures v < 100
  {
    10 * Digit(s[0]) + Digit(s[1])
  }

  /** Put an alternative in front of the later ones when it matches. */
  function Alt(matches: bool, step: Step, later: seq<Step>): seq<Step>
  {
    if matches then [step] + later else later
  }

  /** The alternatives of (?P<d>3[01]|[12]\d|0[1-9]|[1-9]| [1-9]) that match
      at the front of s, in the order the regex tries them. */
  function DaySteps(s: string): (steps: seq<Step>)
    ensures forall k :: 0 <= k < |steps| ==> 1 <= steps[k].len <= |s|
  {
    if |s| == 0 then []
    else if |s| == 1 then Alt(IsNonZeroDigit(s[0]), Step(1, SetDay(Digit(s[0]))), [])
    else
      Alt(s[0] == '3' && (s[1] == '0' || s[1] == '1'), Step(2, SetDay(Two(s))),
      Alt((s[0] == '1' || s[0] == '2') && IsDigit(s[1]), Step(2, SetDay(Two(s))),
      Alt(s[0] == '0' && IsNonZeroDigit(s[1]), Step(2, SetDay(Two(s))),
      Alt(IsNonZeroDigit(s[0]), Step(1, SetDay(Digit(s[0]))),
      Alt(s[0] == ' ' && IsNonZeroDigit(s[1]), Step(2, SetDay(Digit(s[1]))), [])))))
  }

  /** The alternatives of (?P<m>1[0-2]|0[1-9]|[1-9]). */
  function MonthSteps(s: string): (steps: seq<Step>)
    ensures forall k :: 0 <= k < |steps| ==> 1 <= steps[k].len <= |s|
  {
    if |s| == 0 then []
    else if |s| == 1 then Alt(IsNonZeroDigit(s[0]), Step(1, SetMonth(Digit(s[0]))), [])
    else
      Alt(s[0] == '1' && '0' <= s[1] <= '2', Step(2, SetMonth(Two(s))),
      Alt(s[0] == '0' && IsNonZeroDigit(s[1]), Step(2, SetMonth(Two(s))),
      Alt(IsNonZeroDigit(s[0]), Step(1, SetMonth(Digit(s[0]))), [])))
  }

  /** The one alternative of (?P<Y>\d\d\d\d). */
  function YearSteps(s: string): (steps: seq<Step>)
    ensures forall k :: 0 <= k < |steps| ==> 1 <= steps[k].len <= |s|
  {
    if |s| >= 4 && IsDigit(s[0]) && IsDigit(s[1]) && IsDigit(s[2]) && IsDigit(s[3])
    then [Step(4, SetYear(DigitsValue(s[..4])))]
    else []
  }

  /** The length of the run of whitespace at the front of s. */
  function SpaceRun(s: string): (n: nat)
    ensures n <= |s|
  {
    if s != [] && IsSpace(s[0]) then 1 + SpaceRun(s[1..]) else 0
  }

  /** \s+ is greedy: the longest run first, then each shorter one. */
  function SpaceSteps(n: nat): (steps: seq<Step>)
    ensures |steps| == n
    ensures forall k :: 0 <= k < n ==> steps[k] == Step(n - k, SetNothing)
  {
    if n == 0 then [] else [Step(n, SetNothing)] + SpaceSteps(n - 1)
  }

  /** The ways a directive can match at the front of s, in regex order. */
  function Steps(d: Directive, s: string): (steps: seq<Step>)
    ensures forall k :: 0 <= k < |steps| ==> 1 <= steps[k].len <= |s|
  {
    match d
    case YearField => YearSteps(s)
    case MonthField => MonthSteps(s)
    case DayField => DaySteps(s)
    case Whitespace => SpaceSteps(SpaceRun(s))
    case Literal(c) => if s != [] && LowerChar(s[0]) == LowerChar(c) then [Step(1, SetNothing)] else []
  }

  function Apply(setting: Setting, f: Fields): Fields
  {
    match setting
    case SetYear(y) => f.(year := Some(y))
    case SetMonth(m) => f.(month := Some(m))
    case SetDay(d) => f.(day := Some(d))
    case SetNothing => f
  }

  /** re.match of the compiled format at the front of s: the first match in
      backtracking order, which need not reach the end of s. */
  function MatchFront(fmt: seq<Directive>, s: string): (m: Option<Match>)
    ensures m.Some? ==> m.value.consumed <= |s|
    decreases |fmt|, 1
  {
    if fmt == [] then Some(Match(Fields(None, None, None), 0))
    else FirstMatch(fmt, s, Steps(fmt[0], s), 0)
  }

  /** Try the alternatives of the first directive from the k-th on, each
      followed by a match of the rest of the format. */
  function FirstMatch(fmt: seq<Directive>, s: string, steps: seq<Step>, k: nat): (m: Option<Match>)
    requires fmt != [] && k <= |steps|
    requires forall j :: 0 <= j < |steps| ==> 1 <= steps[j].len <= |s|
    ensures m.Some? ==> m.value.consumed <= |s|
    decreases |fmt|, 0, |steps| - k
  {
    if k == |steps| then None
    else
      var step := steps[k];
      match MatchFront(fmt[1..], s[step.len..])
      case Some(rest) => Some(Match(Apply(step.setting, rest.fields), step.len + rest.consumed))
      case None => FirstMatch(fmt, s, steps, k + 1)
  }

  /** A calendar date. */
  datatype Date = Date(year: int, month: int, day: int)

  predicate IsLeapYear(y: int)
  {
    y % 4 == 0 && (y % 100 != 0 || y % 400 == 0)
  }

  function DaysInMonth(y: int, m: int): int
    requires 1 <= m <= 12
  {
    if m == 2 then (if IsLeapYear(y) then 29 else 28)
    else if m == 4 || m == 6 || m == 9 || m == 11 then 30
    else 31
  }

  predicate ValidDate(d: Date)
  {
    1 <= d.month <= 12 && 1 <= d.day <= DaysInMonth(d.year, d.month)
  }

  predicate DateBefore(a: Date, b: Date)
  {
    a.year < b.year || (a.year == b.year && (a.month < b.month || (a.month == b.month && a.day <= b.day)))
  }

  /** The days a nanosecond pandas Timestamp can hold at midnight:
      1677-09-22 through 2262-04-11. */
  predicate InTimestampRange(d: Date)
  {
    DateBefore(Date(1677, 9, 22), d) && DateBefore(d, Date(2262, 4, 11))
  }

  /** pd.to_datetime(s, format=..., errors='coerce') on one text: the first
      match must cover the whole text; fields the format lacks default to
      1900, January and the 1st; an impossible calendar date or one outside
      the Timestamp range is NaT (None). */
  function ParseDate(fmt: seq<Directive>, s: string): (r: Option<Date>)
    ensures r.Some? ==> ValidDate(r.value) && InTimestampRange(r.value)
    ensures r.Some? ==> MatchFront(fmt, s).Some? && MatchFront(fmt, s).value.consumed == |s|
  {
    match MatchFront(fmt, s)
    case None => None
    case Some(m) =>
      if m.consumed != |s| then None
      else
        var d := Date(m.fields.year.GetOr(1900), m.fields.month.GetOr(1), m.fields.day.GetOr(1));
        if ValidDate(d) && InTimestampRange(d) then Some(d) else None
  }

  /** strftime('%Y-%m-%d') of a Timestamp-range date. */
  function IsoDateText(d: Date): (r: string)
    requires ValidDate(d) && InTimestampRange(d)
    ensures |r| == 10 && r[4] == '-' && r[7] == '-'
    ensures forall i :: 0 <= i < 10 && i != 4 && i != 7 ==> IsDigit(r[i])
  {
    PaddedDigits(d.year, 4) + "-" + PaddedDigits(d.month, 2) + "-" + PaddedDigits(d.day, 2)
  }

  /** The text reads back as the same date. */
  lemma IsoDateTextRoundTrip(d: Date)
    requires ValidDate(d) && InTimestampRange(d)
    ensures var r := IsoDateText(d);
      && DigitsValue(r[..4]) == d.year
      && DigitsValue(r[5..7]) == d.month
      && DigitsValue(r[8..]) == d.day
  {
    var r := IsoDateText(d);
    assert r[..4] == PaddedDigits(d.year, 4);
    assert r[5..7] == PaddedDigits(d.month, 2);
    assert r[8..] == PaddedDigits(d.day, 2);
    assert Pow10(2) == 100 && Pow10(4) == 10000;
    PaddedDigitsRoundTrip(d.year, 4);
    PaddedDigitsRoundTrip(d.month, 2);
    PaddedDigitsRoundTrip(d.day, 2);
  }

  /** The values pandas reads as NaT before parsing. */
  const NatStrings: set<string> := {"NaT", "nat", "NAT", "nan", "NaN", "NAN"}

  /** dob_norm of one raw value under a vendor's format: str(v) stripped,
      parsed, and re-emitted as YYYY-MM-DD; anything unparsable is null. */
  function DobValue(fmt: string, raw: Value): (r: Value)
    ensures r.Null? || (r.Str? && |r.s| == 10 && r.s[4] == '-' && r.s[7] == '-')
  {
    var text := Strip(AsText(raw));
    if text == [] || text in NatStrings then Null
    else match CompileFormat(fmt)
      case None => Null
      case Some(ds) =>
        match ParseDate(ds, text)
        case None => Null
        case Some(d) => Str(IsoDateText(d))
  }

  /** The date text is null exactly when the stripped text is empty or a NaT
      spelling, the format is outside the modelled directives, or the parse
      fails; otherwise it is the parsed date in YYYY-MM-DD form. */
  lemma DobValueCases(fmt: string, raw: Value)
    ensures var text := Strip(AsText(raw));
      var ok := text != [] && text !in NatStrings && CompileFormat(fmt).Some?
        && ParseDate(CompileFormat(fmt).value, text).Some?;
      && (DobValue(fmt, raw) == Null <==> !ok)
      && (ok ==> DobValue(fmt, raw) == Str(IsoDateText(ParseDate(CompileFormat(fmt).value, text).value)))
  {
  }

  /** dob_norm of one row: null unless the row's vendor has a format. */
  function NormalizeDob(dateFormats: map<string, string>, row: Record): (r: Value)
    ensures var v := Get(row, "source_vendor");
      && (!(v.Str? && v.s in dateFormats) ==> r == Null)
      && (v.Str? && v.s in dateFormats ==> r == DobValue(dateFormats[v.s], Get(row, "dob_raw")))
  {
    match Get(row, "source_vendor")
    case Str(vendor) => if vendor in dateFormats then DobValue(dateFormats[vendor], Get(row, "dob_raw")) else Null
    case _ => Null
  }

  // -- the month/day/year format ------------------------------------------

  /** The month/day/year format of the vendor configuration. */
  const MonthDayYearFormat: string := "%m/%d/%Y"

  /** %m/%d/%Y compiled, and its tails. */
  const MonthDayYear: seq<Directive> := [MonthField] + SlashDayYear
  const SlashDayYear: seq<Directive> := [Literal('/')] + DayYear
  const DayYear: seq<Directive> := [DayField] + SlashYear
  const SlashYear: seq<Directive> := [Literal('/'), YearField]

  lemma CompileMonthDayYear()
    ensures CompileFormat(MonthDayYearFormat) == Some(MonthDayYear)
  {
    var f := MonthDayYearFormat;
    assert f[3..][2..] == f[5..] && f[5..][1..] == f[6..] && f[6..][2..] == [];
    assert f[2..][1..] == f[3..];
    assert CompileDirectives(f[6..]) == Some([YearField]) by {
      assert [YearField] + [] == [YearField];
    }
    assert CompileDirectives(f[5..]) == Some(SlashYear) by {
      assert [Literal('/')] + [YearField] == SlashYear;
    }
    assert CompileDirectives(f[3..]) == Some(DayYear);
    assert CompileDirectives(f[2..]) == Some(SlashDayYear);
    assert CompileDirectives(f) == Some(MonthDayYear);
    assert !FieldRepeated(MonthDayYear) by {
      assert MonthDayYear == [MonthField, Literal('/'), DayField, Literal('/'), YearField];
      FieldRepeatedIff(MonthDayYear);
    }
  }

  /** A date written the way the format describes it, zero-padded. */
  function MonthDayYearText(d: Date): string
    requires ValidDate(d) && InTimestampRange(d)
  {
    PaddedDigits(d.month, 2) + "/" + PaddedDigits(d.day, 2) + "/" + PaddedDigits(d.year, 4)
  }

  /** Two decimal digits, zero-padded. */
  lemma PaddedTwo(n: nat, rest: string)
    requires n < 100
    ensures var s := PaddedDigits(n, 2) + rest;
      |s| >= 2 && s[0] == DigitChar(n / 10) && s[1] == DigitChar(n % 10) && Two(s) == n
  {
    assert PaddedDigits(n, 2) == [DigitChar(n / 10), DigitChar(n % 10)];
  }

  /** On a zero-padded month the first alternative is the two-character
      one. */
  lemma MonthStepsPadded(m: nat, rest: string)
    requires 1 <= m <= 12
    ensures |MonthSteps(PaddedDigits(m, 2) + rest)| > 0 && MonthSteps(PaddedDigits(m, 2) + rest)[0] == Step(2, SetMonth(m))
  {
    PaddedTwo(m, rest);
    MonthStepsTwoDigits(PaddedDigits(m, 2) + rest);
  }

  lemma MonthStepsTwoDigits(s: string)
    requires |s| >= 2 && IsDigit(s[0]) && IsDigit(s[1]) && 1 <= Two(s) <= 12
    ensures |MonthSteps(s)| > 0 && MonthSteps(s)[0] == Step(2, SetMonth(Two(s)))
  {
    if s[0] == '1' {
      assert '0' <= s[1] <= '2';
    } else {
      assert s[0] == '0' && IsNonZeroDigit(s[1]);
    }
  }

  /** On a zero-padded day the first alternative is the two-character one. */
  lemma DayStepsPadded(d: nat, rest: string)
    requires 1 <= d <= 31
    ensures |DaySteps(PaddedDigits(d, 2) + rest)| > 0 && DaySteps(PaddedDigits(d, 2) + rest)[0] == Step(2, SetDay(d))
  {
    PaddedTwo(d, rest);
    DayStepsTwoDigits(PaddedDigits(d, 2) + rest);
  }

  lemma DayStepsTwoDigits(s: string)
    requires |s| >= 2 && IsDigit(s[0]) && IsDigit(s[1]) && 1 <= Two(s) <= 31
    ensures |DaySteps(s)| > 0 && DaySteps(s)[0] == Step(2, SetDay(Two(s)))
  {
    if s[0] == '3' {
      assert s[1] == '0' || s[1] == '1';
    } else if s[0] == '0' {
      assert IsNonZeroDigit(s[1]);
    } else {
      assert s[0] == '1' || s[0] == '2';
    }
  }

  lemma YearStepsPadded(y: nat, rest: string)
    requires y < 10000
    ensures YearSteps(PaddedDigits(y, 4) + rest) == [Step(4, SetYear(y))]
  {
    var s := PaddedDigits(y, 4) + rest;
    assert s[..4] == PaddedDigits(y, 4);
    assert Pow10(4) == 10000;
    PaddedDigitsRoundTrip(y, 4);
  }

  /** When the first alternative of the first directive leads to a match of
      the rest of the format, that is the match. */
  lemma FirstStepWins(d: Directive, tail: seq<Directive>, s: string, step: Step, rest: Match)
    requires |Steps(d, s)| > 0 && Steps(d, s)[0] == step
    requires MatchFront(tail, s[step.len..]) == Some(rest)
    ensures MatchFront([d] + tail, s) == Some(Match(Apply(step.setting, rest.fields), step.len + rest.consumed))
  {
    assert ([d] + tail)[0] == d && ([d] + tail)[1..] == tail;
  }

  /** "/YYYY" matches the last two directives and sets the year. */
  lemma MatchSlashYear(y: nat)
    requires y < 10000
    ensures MatchFront(SlashYear, "/" + PaddedDigits(y, 4)) == Some(Match(Fields(Some(y), None, None), 5))
  {
    var yyyy := PaddedDigits(y, 4);
    var none := Fields(None, None, None);
    assert MatchFront([], yyyy[4..]) == Some(Match(none, 0));
    YearStepsPadded(y, []);
    assert yyyy + [] == yyyy;
    FirstStepWins(YearField, [], yyyy, Step(4, SetYear(y)), Match(none, 0));
    assert [YearField] + [] == [YearField];
    assert ("/" + yyyy)[1..] == yyyy;
    FirstStepWins(Literal('/'), [YearField], "/" + yyyy, Step(1, SetNothing), Match(none.(year := Some(y)), 4));
  }

  /** "DD/YYYY" matches the day and the rest. */
  lemma MatchDayYear(d: nat, y: nat)
    requires 1 <= d <= 31 && y < 10000
    ensures MatchFront(DayYear, PaddedDigits(d, 2) + ("/" + PaddedDigits(y, 4)))
         == Some(Match(Fields(Some(y), None, Some(d)), 7))
  {
    var s3 := "/" + PaddedDigits(y, 4);
    var s2 := PaddedDigits(d, 2) + s3;
    MatchSlashYear(y);
    DayStepsPadded(d, s3);
    assert s2[2..] == s3;
    FirstStepWins(DayField, SlashYear, s2, Step(2, SetDay(d)), Match(Fields(Some(y), None, None), 5));
  }

  /** "MM/DD/YYYY" matches the whole format and sets all three fields. */
  lemma MatchMonthDayYear(m: nat, d: nat, y: nat)
    requires 1 <= m <= 12 && 1 <= d <= 31 && y < 10000
    ensures MatchFront(MonthDayYear, PaddedDigits(m, 2) + ("/" + (PaddedDigits(d, 2) + ("/" + PaddedDigits(y, 4)))))
         == Some(Match(Fields(Some(y), Some(m), Some(d)), 10))
  {
    var s2 := PaddedDigits(d, 2) + ("/" + PaddedDigits(y, 4));
    var s1 := "/" + s2;
    var s := PaddedDigits(m, 2) + s1;
    MatchDayYear(d, y);
    assert s1[1..] == s2;
    FirstStepWins(Literal('/'), DayYear, s1, Step(1, SetNothing), Match(Fields(Some(y), None, Some(d)), 7));
    MonthStepsPadded(m, s1);
    assert s[2..] == s1;
    FirstStepWins(MonthField, SlashDayYear, s, Step(2, SetMonth(m)), Match(Fields(Some(y), None, Some(d)), 8));
  }

  /** Every Timestamp-range date written as MM/DD/YYYY parses back to itself
      under %m/%d/%Y. */
  lemma MonthDayYearRoundTrip(d: Date)
    requires ValidDate(d) && InTimestampRange(d)
    ensures ParseDate(MonthDayYear, MonthDayYearText(d)) == Some(d)
  {
    var mm, dd, yyyy := PaddedDigits(d.month, 2), PaddedDigits(d.day, 2), PaddedDigits(d.year, 4);
    assert MonthDayYearText(d) == mm + ("/" + (dd + ("/" + yyyy)));
    MatchMonthDayYear(d.month, d.day, d.year);
  }

  /** A two-digit month above 12 never matches %m/%d/%Y: the month group
      can then take only one digit, and the second digit is not a '/'. */
  lemma MonthDayYearRejectsWideMonth(s: string)
    requires |s| >= 2 && IsDigit(s[0]) && IsDigit(s[1]) && Two(s) > 12
    ensures MatchFront(MonthDayYear, s) == None
  {
    assert MonthDayYear[0] == MonthField && MonthDayYear[1..] == SlashDayYear;
    var steps := MonthSteps(s);
    assert |steps| <= 1 && (|steps| == 1 ==> steps[0].len == 1);
    if |steps| == 1 {
      assert Steps(Literal('/'), s[1..]) == [];
      assert SlashDayYear[0] == Literal('/');
      assert MatchFront(SlashDayYear, s[1..]) == None;
      assert s[steps[0].len..] == s[1..];
      assert FirstMatch(MonthDayYear, s, steps, 1) == None;
    }
  }

  /** Under %m/%d/%Y a non-empty text that is not a NaT spelling becomes
      its parsed date, or null. */
  lemma DobValueMonthDayYear(raw: Value, text: string)
    requires Strip(AsText(raw)) == text && text != [] && text !in NatStrings
    ensures DobValue(MonthDayYearFormat, raw) == match ParseDate(MonthDayYear, text)
      case None => Null
      case Some(d) => Str(IsoDateText(d))
  {
    CompileMonthDayYear();
  }

  /** The format's boundary cases: a padded date parses and is re-emitted
      year first. */
  lemma MonthDayYearExample()
    ensures ParseDate(MonthDayYear, "01/15/1990") == Some(Date(1990, 1, 15))
    ensures IsoDateText(Date(1990, 1, 15)) == "1990-01-15"
  {
    var d := Date(1990, 1, 15);
    assert PaddedDigits(1, 2) == "01" && PaddedDigits(15, 2) == "15" && PaddedDigits(1990, 4) == "1990";
    assert MonthDayYearText(d) == "01/15/1990";
    MonthDayYearRoundTrip(d);
  }

  /** Month 13 and 99/99/9999 are not dates. */
  lemma MonthDayYearRejects()
    ensures ParseDate(MonthDayYear, "13/45/1990") == None
    ensures ParseDate(MonthDayYear, "99/99/9999") == None
  {
    MonthDayYearRejectsWideMonth("13/45/1990");
    MonthDayYearRejectsWideMonth("99/99/9999");
  }
}
