/**
 * Character and string helpers shared by the three stages: Python's
 * str.strip, str.lower, str.zfill and str(int), restricted to ASCII text.
 */
module Text {

  /** Python's str.isspace on ASCII: space, the five controls 0x09..0x0D and
      the four information separators 0x1C..0x1F. The regex class \s agrees. */
  predicate IsSpace(c: char) {
    c == ' ' || (9 <= c as int <= 13) || (28 <= c as int <= 31)
  }

  predicate AllSpace(s: string) {
    forall i :: 0 <= i < |s| ==> IsSpace(s[i])
  }

  predicate IsDigit(c: char) { '0' <= c <= '9' }

  predicate IsLowerAlnum(c: char) { ('a' <= c <= 'z') || IsDigit(c) }

  function StripLeft(s: string): (r: string)
    ensures |r| <= |s| && r == s[|s| - |r|..]
    ensures r == [] || !IsSpace(r[0])
    ensures AllSpace(s[..|s| - |r|])
  {
    if |s| > 0 && IsSpace(s[0]) then
      var r := StripLeft(s[1..]);
      assert s[..|s| - |r|] == [s[0]] + s[1..][..|s| - 1 - |r|];
      r
    else s
  }

  function StripRight(s: string): (r: string)
    ensures |r| <= |s| && r == s[..|r|]
    ensures r == [] || !IsSpace(r[|r| - 1])
    ensures AllSpace(s[|r|..])
  {
    if |s| > 0 && IsSpace(s[|s| - 1]) then
      var r := StripRight(s[..|s| - 1]);
      assert s[|r|..] == s[..|s| - 1][|r|..] + [s[|s| - 1]];
      r
    else s
  }

  /** str.strip(): drop leading and trailing whitespace. */
  function Strip(s: string): (r: string)
    ensures |r| <= |s|
    ensures r == [] || (!IsSpace(r[0]) && !IsSpace(r[|r| - 1]))
  {
    StripRight(StripLeft(s))
  }

  /** Stripping only removes characters: whatever holds of every character
      of the text holds of every character of the result. */
  lemma StripKeeps(s: string, p: char -> bool)
    requires forall i :: 0 <= i < |s| ==> p(s[i])
    ensures forall i :: 0 <= i < |Strip(s)| ==> p(Strip(s)[i])
  {
    var left := StripLeft(s);
    var r := StripRight(left);
    forall i | 0 <= i < |r| ensures p(r[i]) {
      assert r[i] == left[..|r|][i] == left[i];
      assert left[i] == s[|s| - |left|..][i] == s[|s| - |left| + i];
    }
  }

  lemma {:induction false} StripLeftOfSpacePrefix(pre: string, s: string)
    requires AllSpace(pre)
    ensures StripLeft(pre + s) == StripLeft(s)
  {
    if pre != [] {
      assert (pre + s)[1..] == pre[1..] + s;
      StripLeftOfSpacePrefix(pre[1..], s);
    } else {
      assert pre + s == s;
    }
  }

  lemma {:induction false} StripRightOfSpaceSuffix(s: string, post: string)
    requires AllSpace(post)
    ensures StripRight(s + post) == StripRight(s)
  {
    if post != [] {
      var n := |s + post|;
      assert (s + post)[..n - 1] == s + post[..|post| - 1];
      StripRightOfSpaceSuffix(s, post[..|post| - 1]);
    } else {
      assert s + post == s;
    }
  }

  lemma {:induction false} StripLeftOfAppend(s: string, post: string)
    requires AllSpace(post)
    ensures !AllSpace(s) ==> StripLeft(s + post) == StripLeft(s) + post
    ensures AllSpace(s) ==> StripLeft(s + post) == []
  {
    if s == [] {
      assert s + post == post;
      AllSpaceStripsLeftToEmpty(post);
    } else if IsSpace(s[0]) {
      assert (s + post)[1..] == s[1..] + post;
      assert AllSpace(s) <==> AllSpace(s[1..]) by {
        assert forall i :: 0 < i < |s| ==> s[i] == s[1..][i - 1];
      }
      StripLeftOfAppend(s[1..], post);
    } else {
      assert !AllSpace(s) by { assert !IsSpace(s[0]); }
    }
  }

  lemma {:induction false} AllSpaceStripsLeftToEmpty(s: string)
    requires AllSpace(s)
    ensures StripLeft(s) == []
  {
    if s != [] {
      AllSpaceStripsLeftToEmpty(s[1..]);
    }
  }

  lemma {:induction false} AllSpaceStripsRightToEmpty(s: string)
    requires AllSpace(s)
    ensures StripRight(s) == []
  {
    if s != [] {
      AllSpaceStripsRightToEmpty(s[..|s| - 1]);
    }
  }

  /** Whitespace padding on either side never changes what strip returns. */
  lemma StripIgnoresPadding(pre: string, s: string, post: string)
    requires AllSpace(pre) && AllSpace(post)
    ensures Strip(pre + s + post) == Strip(s)
  {
    StripLeftOfPadded(pre, s, post);
    StripOfSpaceSuffix(s, post);
  }

  lemma StripLeftOfPadded(pre: string, s: string, post: string)
    requires AllSpace(pre)
    ensures StripLeft(pre + s + post) == StripLeft(s + post)
  {
    ConcatAssoc(pre, s, post);
    StripLeftOfSpacePrefix(pre, s + post);
  }

  lemma ConcatAssoc(a: string, b: string, c: string)
    ensures a + b + c == a + (b + c)
  {
  }

  lemma StripOfSpaceSuffix(s: string, post: string)
    requires AllSpace(post)
    ensures StripRight(StripLeft(s + post)) == StripRight(StripLeft(s))
  {
    StripLeftOfAppend(s, post);
    if AllSpace(s) {
      AllSpaceStripsLeftToEmpty(s);
    } else {
      StripRightOfSpaceSuffix(StripLeft(s), post);
    }
  }

  /** Strip is idempotent. */
  lemma StripIdempotent(s: string)
    ensures Strip(Strip(s)) == Strip(s)
  {
    var l := StripLeft(s);
    var r := StripRight(l);
    assert r == [] || !IsSpace(r[0]) by {
      if r != [] { assert r[0] == l[0]; }
    }
  }

  /** A text with no whitespace at either end is its own strip. */
  lemma StripOfTrimmed(s: string)
    requires s == [] || (!IsSpace(s[0]) && !IsSpace(s[|s| - 1]))
    ensures Strip(s) == s
  {
  }

  function LowerChar(c: char): (r: char)
  {
    if 'A' <= c <= 'Z' then (c as int + 32) as char else c
  }

  /** str.lower() (and str.casefold()) restricted to ASCII. */
  function Lower(s: string): (r: string)
    ensures |r| == |s|
    ensures forall i :: 0 <= i < |s| ==> r[i] == LowerChar(s[i])
  {
    seq(|s|, i requires 0 <= i < |s| => LowerChar(s[i]))
  }

  lemma LowerAppend(a: string, b: string)
    ensures Lower(a + b) == Lower(a) + Lower(b)
  {
  }

  lemma LowerOfSpace(s: string)
    requires AllSpace(s)
    ensures Lower(s) == s
  {
  }

  function Zeros(n: nat): (r: string)
    ensures |r| == n && forall i :: 0 <= i < n ==> r[i] == '0'
  {
    seq(n, _ => '0')
  }

  /** str.zfill(width): pad with '0' on the left up to width; a leading sign
      stays in front of the padding; a text already that wide is unchanged. */
  function ZFill(s: string, width: nat): (r: string)
    ensures |r| == if |s| >= width then |s| else width
    ensures |s| >= width ==> r == s
    ensures |s| < width && (s == [] || (s[0] != '+' && s[0] != '-')) ==>
      && (forall i :: 0 <= i < width - |s| ==> r[i] == '0')
      && r[width - |s|..] == s
    ensures |s| < width && s != [] && (s[0] == '+' || s[0] == '-') ==>
      && r[0] == s[0]
      && (forall i :: 1 <= i <= width - |s| ==> r[i] == '0')
      && r[width - |s| + 1..] == s[1..]
  {
    if |s| >= width then s
    else if |s| > 0 && (s[0] == '+' || s[0] == '-') then [s[0]] + Zeros(width - |s|) + s[1..]
    else Zeros(width - |s|) + s
  }

  function DigitChar(d: nat): (c: char)
    requires d < 10
    ensures IsDigit(c)
  {
    ('0' as int + d) as char
  }

  function DigitValue(c: char): (d: nat)
    requires IsDigit(c)
    ensures d < 10 && DigitChar(d) == c
  {
    c as int - '0' as int
  }

  /** str(n) for a natural number: its decimal digits, no leading zeros. */
  function NatText(n: nat): (r: string)
    ensures |r| >= 1 && forall i :: 0 <= i < |r| ==> IsDigit(r[i])
    ensures |r| > 1 ==> r[0] != '0'
    decreases n
  {
    if n < 10 then [DigitChar(n)] else NatText(n / 10) + [DigitChar(n % 10)]
  }

  /** str(n) for any Python int: a '-' in front of negative numbers. */
  function IntText(n: int): (r: string)
  {
    if n < 0 then "-" + NatText(-n) else NatText(n)
  }

  /** The value of a run of decimal digits (int() of a digit string). */
  function DigitsValue(s: string): (v: nat)
    requires forall i :: 0 <= i < |s| ==> IsDigit(s[i])
  {
    if s == [] then 0 else DigitsValue(s[..|s| - 1]) * 10 + DigitValue(s[|s| - 1])
  }

  /** Reading back the decimal text of a natural number gives the number. */
  lemma {:induction false} NatTextRoundTrip(n: nat)
    ensures DigitsValue(NatText(n)) == n
  {
    if n >= 10 {
      var t := NatText(n / 10) + [DigitChar(n % 10)];
      assert t[..|t| - 1] == NatText(n / 10);
      NatTextRoundTrip(n / 10);
    }
  }

  /** Fixed-width decimal text of n (width digits, leading zeros kept). */
  function PaddedDigits(n: nat, width: nat): (r: string)
    ensures |r| == width && forall i :: 0 <= i < width ==> IsDigit(r[i])
    decreases width
  {
    if width == 0 then [] else PaddedDigits(n / 10, width - 1) + [DigitChar(n % 10)]
  }

  /** Reading back a fixed-width rendering gives the number when it fits. */
  lemma {:induction false} PaddedDigitsRoundTrip(n: nat, width: nat)
    requires n < Pow10(width)
    ensures DigitsValue(PaddedDigits(n, width)) == n
  {
    if width > 0 {
      var t := PaddedDigits(n, width);
      var init := PaddedDigits(n / 10, width - 1);
      assert t == init + [DigitChar(n % 10)];
      assert t[..width - 1] == init;
      assert n / 10 < Pow10(width - 1);
      PaddedDigitsRoundTrip(n / 10, width - 1);
      assert DigitValue(t[width - 1]) == n % 10;
    }
  }

  function Pow10(k: nat): (r: nat)
    ensures r >= 1
  {
    if k == 0 then 1 else 10 * Pow10(k - 1)
  }
}
