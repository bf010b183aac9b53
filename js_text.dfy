/** The JavaScript string built-ins the mobile client relies on:
    `String.prototype.trim` and `parseInt(s, 10)`. `parseInt` yields `NaN`
    when no digit follows the optional sign; it is `None` here, which is
    also what `JSON.stringify` sends for it (`null`). */
module JsText {
  import opened Common

  /** The WhiteSpace and LineTerminator code points of ECMAScript
      (sections 12.2 and 12.3 of ECMA-262), which `trim` and `parseInt`
      skip. */
  predicate JsSpace(c: char) {
    c == '\t' || c == '\n' || c == '\U{0B}' || c == '\U{0C}' || c == '\r' || c == ' '
    || c == '\U{A0}' || c == '\U{1680}' || ('\U{2000}' <= c <= '\U{200A}')
    || c == '\U{2028}' || c == '\U{2029}' || c == '\U{202F}' || c == '\U{205F}'
    || c == '\U{3000}' || c == '\U{FEFF}'
  }

  predicate AllJsSpace(s: string) {
    forall i :: 0 <= i < |s| ==> JsSpace(s[i])
  }

  function TrimStart(s: string): (r: string)
    ensures |r| <= |s| && r == s[|s| - |r|..]
    ensures r != [] ==> !JsSpace(r[0])
    ensures AllJsSpace(s[..|s| - |r|])
    decreases |s|
  {
    if s != [] && JsSpace(s[0]) then
      var r := TrimStart(s[1..]);
      assert s[..|s| - |r|] == [s[0]] + s[1..][..|s| - 1 - |r|];
      r
    else s
  }

  function TrimEnd(s: string): (r: string)
    ensures |r| <= |s| && r == s[..|r|]
    ensures r != [] ==> !JsSpace(r[|r| - 1])
    ensures AllJsSpace(s[|r|..])
    decreases |s|
  {
    if s != [] && JsSpace(s[|s| - 1]) then
      var r := TrimEnd(s[..|s| - 1]);
      assert s[|r|..] == s[..|s| - 1][|r|..] + [s[|s| - 1]];
      r
    else s
  }

  /** `s.trim()`. */
  function Trim(s: string): string {
    TrimEnd(TrimStart(s))
  }

  /** What `trim` keeps is a piece of the input with no space at either end,
      and only spaces are dropped around it. */
  lemma TrimProperties(s: string) returns (i: nat)
    ensures i + |Trim(s)| <= |s| && Trim(s) == s[i..i + |Trim(s)|]
    ensures AllJsSpace(s[..i]) && AllJsSpace(s[i + |Trim(s)|..])
    ensures Trim(s) != [] ==> !JsSpace(Trim(s)[0]) && !JsSpace(Trim(s)[|Trim(s)| - 1])
  {
    var t := TrimStart(s);
    i := |s| - |t|;
    TrimmedPiece(s, t, TrimEnd(t), i);
  }

  /** The shape of `trim`'s result, from the two halves' contracts: `t` is
      what `trimStart` keeps of `s` and `r` what `trimEnd` keeps of `t`. */
  lemma TrimmedPiece(s: string, t: string, r: string, i: nat)
    requires i == |s| - |t| && t == s[i..] && AllJsSpace(s[..i]) && (t != [] ==> !JsSpace(t[0]))
    requires |r| <= |t| && r == t[..|r|] && AllJsSpace(t[|r|..]) && (r != [] ==> !JsSpace(r[|r| - 1]))
    ensures i + |r| <= |s| && r == s[i..i + |r|]
    ensures AllJsSpace(s[i + |r|..])
    ensures r != [] ==> !JsSpace(r[0])
  {
    assert s[i + |r|..] == t[|r|..];
    if r != [] {
      assert r[0] == t[0];
    }
  }

  /** The empty result of `trim` is exactly the all-space input. */
  lemma TrimEmptyIff(s: string)
    ensures Trim(s) == "" <==> AllJsSpace(s)
  {
    var i := TrimProperties(s);
    if Trim(s) == "" {
      assert s == s[..i] + s[i..];
      assert forall k :: i <= k < |s| ==> s[k] == s[i..][k - i];
    }
  }

  lemma TrimStartOfTrimmed(s: string)
    requires s == [] || !JsSpace(s[0])
    ensures TrimStart(s) == s
  {
  }

  lemma TrimEndOfTrimmed(s: string)
    requires s == [] || !JsSpace(s[|s| - 1])
    ensures TrimEnd(s) == s
  {
  }

  /** Trimming twice is trimming once. */
  lemma TrimIdempotent(s: string)
    ensures Trim(Trim(s)) == Trim(s)
  {
    var r := Trim(s);
    var _ := TrimProperties(s);
    TrimStartOfTrimmed(r);
    TrimEndOfTrimmed(r);
  }

  predicate IsDigit(c: char) {
    '0' <= c <= '9'
  }

  /** The longest run of decimal digits at the start of `s`. */
  function LeadingDigits(s: string): (r: string)
    ensures |r| <= |s| && r == s[..|r|]
    ensures forall i :: 0 <= i < |r| ==> IsDigit(r[i])
    ensures |r| < |s| ==> !IsDigit(s[|r|])
    decreases |s|
  {
    if s != [] && IsDigit(s[0]) then [s[0]] + LeadingDigits(s[1..]) else []
  }

  /** The value of a run of decimal digits. */
  function DigitsValue(d: string): nat
    requires forall i :: 0 <= i < |d| ==> IsDigit(d[i])
    decreases |d|
  {
    if d == [] then 0
    else
      assert IsDigit(d[|d| - 1]);
      DigitsValue(d[..|d| - 1]) * 10 + (d[|d| - 1] as int - '0' as int)
  }

  /** `parseInt(s, 10)`: leading white space, an optional sign, and the
      longest run of digits after it; `None` for `NaN`. */
  function ParseInt(s: string): (r: Option<int>)
    ensures r.None? <==> var t := TrimStart(s);
      var u := if t != [] && (t[0] == '-' || t[0] == '+') then t[1..] else t;
      u == [] || !IsDigit(u[0])
  {
    ParseSigned(TrimStart(s))
  }

  /** `parseInt` after the leading white space: an optional sign and the
      digits that follow it. */
  function ParseSigned(t: string): (r: Option<int>)
    ensures r.None? <==> var u := if t != [] && (t[0] == '-' || t[0] == '+') then t[1..] else t;
      u == [] || !IsDigit(u[0])
  {
    var negative := t != [] && t[0] == '-';
    var u := if t != [] && (t[0] == '-' || t[0] == '+') then t[1..] else t;
    var d := LeadingDigits(u);
    var v: int := DigitsValue(d);
    if d == [] then None
    else if negative then Some(-v)
    else Some(v)
  }

  lemma {:induction false} DigitsValueOfNat(n: nat)
    ensures forall i :: 0 <= i < |NatToString(n)| ==> IsDigit(NatToString(n)[i])
    ensures DigitsValue(NatToString(n)) == n
    decreases n
  {
    var s := NatToString(n);
    if n >= 10 {
      DigitsValueOfNat(n / 10);
      assert s[..|s| - 1] == NatToString(n / 10);
    }
  }

  lemma {:induction false} LeadingDigitsOfDigits(d: string, rest: string)
    requires forall i :: 0 <= i < |d| ==> IsDigit(d[i])
    requires rest == [] || !IsDigit(rest[0])
    ensures LeadingDigits(d + rest) == d
    decreases |d|
  {
    if d != [] {
      assert (d + rest)[1..] == d[1..] + rest;
      LeadingDigitsOfDigits(d[1..], rest);
      assert d == [d[0]] + d[1..];
    } else {
      assert d + rest == rest;
    }
  }

  lemma NoSpaceBeforeDigit(s: string)
    requires s != [] && (IsDigit(s[0]) || s[0] == '-')
    ensures TrimStart(s) == s
  {
  }

  /** Text that starts with its digits, unsigned. */
  lemma ParseIntUnsigned(s: string, d: string)
    requires d != [] && forall i :: 0 <= i < |d| ==> IsDigit(d[i])
    requires TrimStart(s) == s && LeadingDigits(s) == d
    ensures ParseInt(s) == Some(DigitsValue(d) as int)
  {
  }

  /** Text that is "-" and then its digits. */
  lemma ParseIntNegative(s: string, d: string)
    requires d != [] && forall i :: 0 <= i < |d| ==> IsDigit(d[i])
    requires s != [] && s[0] == '-' && TrimStart(s) == s && LeadingDigits(s[1..]) == d
    ensures ParseInt(s) == Some(-(DigitsValue(d) as int))
  {
  }

  lemma ParseIntOfDigits(d: string, rest: string)
    requires d != [] && forall i :: 0 <= i < |d| ==> IsDigit(d[i])
    requires rest == [] || !IsDigit(rest[0])
    ensures ParseInt(d + rest) == Some(DigitsValue(d) as int)
  {
    assert (d + rest)[0] == d[0];
    NoSpaceBeforeDigit(d + rest);
    LeadingDigitsOfDigits(d, rest);
    ParseIntUnsigned(d + rest, d);
  }

  lemma ParseIntOfNegative(d: string, rest: string)
    requires d != [] && forall i :: 0 <= i < |d| ==> IsDigit(d[i])
    requires rest == [] || !IsDigit(rest[0])
    ensures ParseInt("-" + d + rest) == Some(-(DigitsValue(d) as int))
  {
    var t := d + rest;
    var s := ['-'] + t;
    assert s == "-" + d + rest;
    assert s[1..] == t;
    NoSpaceBeforeDigit(s);
    LeadingDigitsOfDigits(d, rest);
    ParseIntNegative(s, d);
  }

  /** `parseInt` reads back the decimal rendering of any integer, whatever
      non-digit text follows it. */
  lemma ParseIntOfDecimal(i: int, rest: string)
    requires rest == [] || !IsDigit(rest[0])
    ensures ParseInt(IntToString(i) + rest) == Some(i)
  {
    var n: nat := if i < 0 then -i else i;
    DigitsValueOfNat(n);
    if i < 0 {
      ParseIntOfNegative(NatToString(n), rest);
      assert IntToString(i) + rest == "-" + NatToString(n) + rest;
    } else {
      ParseIntOfDigits(NatToString(n), rest);
    }
  }

  lemma {:induction false} TrimStartSkipsSpace(w: string, s: string)
    requires AllJsSpace(w)
    ensures TrimStart(w + s) == TrimStart(s)
    decreases |w|
  {
    if w != [] {
      assert (w + s)[0] == w[0];
      assert (w + s)[1..] == w[1..] + s;
      TrimStartSkipsSpace(w[1..], s);
    } else {
      assert w + s == s;
    }
  }

  /** Leading white space does not change what `parseInt` reads. */
  lemma ParseIntSkipsSpace(w: string, s: string)
    requires AllJsSpace(w)
    ensures ParseInt(w + s) == ParseInt(s)
  {
    TrimStartSkipsSpace(w, s);
  }
}
