/** JavaScript string primitives the application relies on, on `seq<char>`:
    `String.prototype.trim`, `Array.prototype.join`, `indexOf` and
    `lastIndexOf` for one character, `substring` with its clamping and
    swapping rules, decimal rendering of integers, and `parseInt` in base 10. */
module Text {
  import opened Wrappers

  /** JavaScript WhiteSpace and LineTerminator characters, the set `trim` removes. */
  predicate IsSpace(c: char) {
    c == ' ' || c == '\t' || c == '\n' || c == '\r' || c == '\U{000B}' || c == '\U{000C}'
    || c == '\U{00A0}' || c == '\U{1680}' || ('\U{2000}' <= c <= '\U{200A}')
    || c == '\U{2028}' || c == '\U{2029}' || c == '\U{202F}' || c == '\U{205F}'
    || c == '\U{3000}' || c == '\U{FEFF}'
  }

  /** Every character of `s` is white space (so `s.trim()` is the empty, falsy string). */
  predicate Blank(s: string) {
    forall i :: 0 <= i < |s| ==> IsSpace(s[i])
  }

  function TrimStart(s: string): (r: string)
    ensures |r| <= |s| && r == s[|s| - |r|..]
    ensures forall i :: 0 <= i < |s| - |r| ==> IsSpace(s[i])
    ensures r == [] || !IsSpace(r[0])
  {
    if |s| > 0 && IsSpace(s[0]) then TrimStart(s[1..]) else s
  }

  function TrimEnd(s: string): (r: string)
    ensures |r| <= |s| && r == s[..|r|]
    ensures forall i :: |r| <= i < |s| ==> IsSpace(s[i])
    ensures r == [] || !IsSpace(r[|r| - 1])
  {
    if |s| > 0 && IsSpace(s[|s| - 1]) then TrimEnd(s[..|s| - 1]) else s
  }

  /** `s.trim()`: the contiguous slice of `s` left after removing white space at both ends. */
  function Trim(s: string): (r: string)
    ensures exists i :: SliceAt(s, i, r)
    ensures r == [] || (!IsSpace(r[0]) && !IsSpace(r[|r| - 1]))
  {
    var t := TrimStart(s);
    var r := TrimEnd(t);
    assert r == s[|s| - |t|..][..|r|] == s[|s| - |t|..|s| - |t| + |r|];
    assert SliceAt(s, |s| - |t|, r);
    r
  }

  /** `s.trim()` is empty exactly when `s` is blank; this is the test behind
      every "empty after trimming" guard of the application. */
  lemma TrimEmptyIffBlank(s: string)
    ensures Trim(s) == [] <==> Blank(s)
  {
    if Blank(s) {
      BlankTrimStart(s);
    } else {
      NonBlankTrim(s);
    }
  }

  lemma {:induction false} BlankTrimStart(s: string)
    requires Blank(s)
    ensures TrimStart(s) == []
  {
    if |s| > 0 {
      assert IsSpace(s[0]);
      assert Blank(s[1..]) by {
        forall i | 0 <= i < |s| - 1 ensures IsSpace(s[1..][i]) {
          assert s[1..][i] == s[i + 1];
        }
      }
      BlankTrimStart(s[1..]);
    }
  }

  lemma NonBlankTrim(s: string)
    requires !Blank(s)
    ensures Trim(s) != []
  {
    var t := TrimStart(s);
    var k :| 0 <= k < |s| && !IsSpace(s[k]);
    assert k >= |s| - |t|;
    assert t[k - (|s| - |t|)] == s[k];
    assert TrimEnd(t) != [];
  }

  /** A possibly `undefined` string is truthy: present and non-empty. */
  predicate Filled(o: Option<string>) {
    o.Some? && o.value != ""
  }

  /** `o || ''` for a possibly `undefined` string. */
  function OrEmpty(o: Option<string>): (r: string)
    ensures Filled(o) ==> r == o.value
    ensures !Filled(o) ==> r == ""
  {
    if o.Some? then o.value else ""
  }

  /** `xs.join(sep)`. */
  function Join(sep: string, xs: seq<string>): string
  {
    if |xs| == 0 then ""
    else if |xs| == 1 then xs[0]
    else xs[0] + sep + Join(sep, xs[1..])
  }

  /** Appending one more part to a non-empty join adds exactly one separator
      and the part; an empty join becomes the part alone. */
  lemma {:induction false} JoinSnoc(sep: string, xs: seq<string>, x: string)
    ensures Join(sep, xs + [x]) == (if |xs| == 0 then x else Join(sep, xs) + sep + x)
    decreases |xs|
  {
    if |xs| >= 2 {
      assert (xs + [x])[1..] == xs[1..] + [x];
      JoinSnoc(sep, xs[1..], x);
    } else if |xs| == 1 {
      assert (xs + [x])[1..] == [x];
    }
  }

  /** `t` occurs in `s` starting at position `i`. */
  predicate SliceAt(s: string, i: int, t: string) {
    0 <= i <= |s| - |t| && s[i..i + |t|] == t
  }

  /** `t` occurs in `s` as a contiguous slice. */
  ghost predicate Contains(s: string, t: string) {
    exists i :: SliceAt(s, i, t)
  }

  /** A slice placed between a prefix and a suffix is contained in the whole. */
  lemma ContainsMiddle(a: string, t: string, b: string)
    ensures Contains(a + t + b, t)
  {
    assert SliceAt(a + t + b, |a|, t);
  }

  /** `s.indexOf(c)`: the first position of `c`, or -1. */
  function IndexOf(s: string, c: char): (r: int)
    ensures -1 <= r < |s|
    ensures r == -1 <==> c !in s
    ensures r >= 0 ==> s[r] == c && c !in s[..r]
    ensures forall k :: 0 <= k < |s| && s[k] == c ==> 0 <= r <= k
  {
    if |s| == 0 then -1
    else if s[0] == c then 0
    else
      var k := IndexOf(s[1..], c);
      if k == -1 then -1
      else
        assert s[..k + 1] == [s[0]] + s[1..][..k];
        k + 1
  }

  /** `s.lastIndexOf(c)`: the last position of `c`, or -1. */
  function LastIndexOf(s: string, c: char): (r: int)
    ensures -1 <= r < |s|
    ensures r == -1 <==> c !in s
    ensures r >= 0 ==> s[r] == c && c !in s[r + 1..]
    ensures forall k :: 0 <= k < |s| && s[k] == c ==> k <= r
  {
    if |s| == 0 then -1
    else if s[|s| - 1] == c then |s| - 1
    else
      var k := LastIndexOf(s[..|s| - 1], c);
      if k == -1 then
        assert s == s[..|s| - 1] + [s[|s| - 1]];
        -1
      else
        assert s[k + 1..] == s[..|s| - 1][k + 1..] + [s[|s| - 1]];
        k
  }

  function Clamp(x: int, hi: nat): (r: nat)
    ensures r <= hi
    ensures 0 <= x <= hi ==> r == x
  {
    if x < 0 then 0 else if x > hi then hi else x
  }

  /** `s.substring(a, b)`: both bounds are clamped to `[0, |s|]`, and when the
      first exceeds the second they are swapped. */
  function Substring(s: string, a: int, b: int): (r: string)
    ensures 0 <= a <= b <= |s| ==> r == s[a..b]
    ensures 0 <= b <= a <= |s| ==> r == s[b..a]
  {
    var lo := Clamp(a, |s|);
    var hi := Clamp(b, |s|);
    if lo <= hi then s[lo..hi] else s[hi..lo]
  }

  predicate IsDigit(c: char) {
    '0' <= c <= '9'
  }

  function DigitChar(d: nat): (c: char)
    requires d < 10
    ensures IsDigit(c)
  {
    "0123456789"[d]
  }

  function DigitValue(c: char): (d: nat)
    requires IsDigit(c)
    ensures d < 10
  {
    (c as int - '0' as int) as nat
  }

  /** The decimal rendering JavaScript gives a non-negative integer. */
  function NatToString(n: nat): (s: string)
    ensures |s| > 0
    ensures forall i :: 0 <= i < |s| ==> IsDigit(s[i])
  {
    if n < 10 then [DigitChar(n)] else NatToString(n / 10) + [DigitChar(n % 10)]
  }

  /** The decimal rendering JavaScript gives any integer (`String(n)`). */
  function IntToString(n: int): string {
    if n < 0 then "-" + NatToString(-n) else NatToString(n)
  }

  /** The value of a string of decimal digits, most significant first. */
  function DigitsValue(ds: string): nat
    requires forall i :: 0 <= i < |ds| ==> IsDigit(ds[i])
  {
    if |ds| == 0 then 0 else DigitsValue(ds[..|ds| - 1]) * 10 + DigitValue(ds[|ds| - 1])
  }

  /** The longest prefix of `s` made of decimal digits. */
  function LeadingDigits(s: string): (ds: string)
    ensures |ds| <= |s| && ds == s[..|ds|]
    ensures forall i :: 0 <= i < |ds| ==> IsDigit(ds[i])
    ensures |ds| == |s| || !IsDigit(s[|ds|])
  {
    if |s| == 0 || !IsDigit(s[0]) then [] else [s[0]] + LeadingDigits(s[1..])
  }

  /** `parseInt(s)` in base 10: leading white space is skipped, an optional
      sign is read, then the longest run of digits; no digit at all is `NaN`,
      here `None`. */
  function ParseInt(s: string): (r: Option<int>)
    ensures r.None? <==> LeadingDigits(SignStripped(TrimStart(s))) == []
  {
    var t := TrimStart(s);
    var negative := |t| > 0 && t[0] == '-';
    var ds := LeadingDigits(SignStripped(t));
    if |ds| == 0 then None
    else
      var v: int := DigitsValue(ds);
      if negative then Some(-v) else Some(v)
  }

  function SignStripped(t: string): string {
    if |t| > 0 && (t[0] == '-' || t[0] == '+') then t[1..] else t
  }

  lemma {:induction false} DigitsValueOfNatToString(n: nat)
    ensures DigitsValue(NatToString(n)) == n
  {
    if n >= 10 {
      var s := NatToString(n);
      assert s[..|s| - 1] == NatToString(n / 10);
      DigitsValueOfNatToString(n / 10);
    }
  }

  lemma {:induction false} LeadingDigitsOfDigits(s: string)
    requires forall i :: 0 <= i < |s| ==> IsDigit(s[i])
    ensures LeadingDigits(s) == s
  {
    if |s| > 0 {
      LeadingDigitsOfDigits(s[1..]);
    }
  }

  /** `parseInt(String(n)) == n` for every integer: the rendering and the
      parser are inverse on integers. */
  lemma ParseIntOfIntToString(n: int)
    ensures ParseInt(IntToString(n)) == Some(n)
  {
    var s := IntToString(n);
    var m := if n < 0 then -n else n;
    assert TrimStart(s) == s;
    LeadingDigitsOfDigits(NatToString(m));
    DigitsValueOfNatToString(m);
    if n < 0 {
      assert SignStripped(s) == NatToString(m);
    } else {
      assert SignStripped(s) == NatToString(m);
    }
  }
}
