/**
 * String helpers with JavaScript's meaning: white space as `String.prototype.trim`
 * and the regular-expression class `\s` see it, `Array.prototype.join`,
 * `Number.prototype.toString` on naturals and `parseInt(s, 10)`.
 */
module Strings {
  import opened Wrappers

  /** ECMAScript WhiteSpace and LineTerminator code points: the set `trim` removes and `\s` matches. */
  predicate IsSpace(c: char)
  {
    || c == ' ' || c == '\t' || c == '\n' || c == '\r' || c == '\U{B}' || c == '\U{C}'
    || c == '\U{A0}' || c == '\U{1680}' || ('\U{2000}' <= c <= '\U{200A}')
    || c == '\U{2028}' || c == '\U{2029}' || c == '\U{202F}' || c == '\U{205F}'
    || c == '\U{3000}' || c == '\U{FEFF}'
  }

  /** Every character is white space (the empty string included). */
  predicate IsBlank(s: string)
  {
    forall i :: 0 <= i < |s| ==> IsSpace(s[i])
  }

  /** Drops leading white space: the result is the suffix of `s` left after it. */
  function TrimStart(s: string): (r: string)
    ensures |r| <= |s| && r == s[|s| - |r|..]
    ensures IsBlank(s[..|s| - |r|])
    ensures r == [] || !IsSpace(r[0])
  {
    if s != [] && IsSpace(s[0]) then TrimStart(s[1..]) else s
  }

  /** Drops trailing white space: the result is the prefix of `s` left before it. */
  function TrimEnd(s: string): (r: string)
    ensures |r| <= |s| && r == s[..|r|]
    ensures IsBlank(s[|r|..])
    ensures r == [] || !IsSpace(r[|r| - 1])
  {
    if s != [] && IsSpace(s[|s| - 1]) then TrimEnd(s[..|s| - 1]) else s
  }

  /** `String.prototype.trim`. */
  function Trim(s: string): (r: string)
    ensures r == [] <==> IsBlank(s)
    ensures r == [] || (!IsSpace(r[0]) && !IsSpace(r[|r| - 1]))
    ensures IsBlank(s) ==> r == []
  {
    var t := TrimStart(s);
    var r := TrimEnd(t);
    assert r == [] <==> IsBlank(s) by {
      if r == [] {
        assert IsBlank(t) by { assert t[|r|..] == t; }
        assert s == s[..|s| - |t|] + t;
      } else {
        assert r[0] == t[0];
        assert !IsSpace(s[|s| - |t|]);
      }
    }
    r
  }

  /** `s` has no white space at either end. */
  predicate Trimmed(s: string)
  {
    s == [] || (!IsSpace(s[0]) && !IsSpace(s[|s| - 1]))
  }

  /** `TrimStart` drops exactly a leading blank run. */
  lemma {:induction false} TrimStartBlankRun(ws: string, rest: string)
    requires IsBlank(ws) && (rest == [] || !IsSpace(rest[0]))
    ensures TrimStart(ws + rest) == rest
  {
    if ws == [] {
      assert ws + rest == rest;
    } else {
      assert (ws + rest)[1..] == ws[1..] + rest;
      TrimStartBlankRun(ws[1..], rest);
    }
  }

  /** `TrimEnd` drops exactly a trailing blank run. */
  lemma {:induction false} TrimEndBlankRun(rest: string, tail: string)
    requires IsBlank(tail) && (rest == [] || !IsSpace(rest[|rest| - 1]))
    ensures TrimEnd(rest + tail) == rest
  {
    if tail == [] {
      assert rest + tail == rest;
    } else {
      var s := rest + tail;
      assert s[..|s| - 1] == rest + tail[..|tail| - 1];
      TrimEndBlankRun(rest, tail[..|tail| - 1]);
    }
  }

  /** `trim` of a text padded with white space on both sides is that text. */
  lemma TrimAround(lead: string, m: string, tail: string)
    requires IsBlank(lead) && IsBlank(tail) && m != [] && Trimmed(m)
    ensures Trim(lead + m + tail) == m
  {
    assert lead + m + tail == lead + (m + tail);
    TrimStartBlankRun(lead, m + tail);
    TrimEndBlankRun(m, tail);
  }

  /** `s[i..j]` is a run of white space. */
  predicate BlankBetween(s: string, i: int, j: int)
  {
    0 <= i <= j <= |s| && forall k :: i <= k < j ==> IsSpace(s[k])
  }

  /** What `TrimStart` drops is a blank run from the start. */
  lemma TrimStartDropsBlank(s: string)
    ensures BlankBetween(s, 0, |s| - |TrimStart(s)|)
  {
    var n := |s| - |TrimStart(s)|;
    forall k | 0 <= k < n
      ensures IsSpace(s[k])
    {
      assert s[..n][k] == s[k];
    }
  }

  /** A blank prefix of the suffix `t` that starts at `m`, up to where `r` begins, is a blank run of `s`. */
  lemma BlankGap(s: string, m: nat, t: string, r: string)
    requires m <= |s| && t == s[m..] && |r| <= |t| && IsBlank(t[..|t| - |r|])
    ensures BlankBetween(s, m, |s| - |r|)
  {
    forall k | m <= k < |s| - |r|
      ensures IsSpace(s[k])
    {
      assert t[..|t| - |r|][k - m] == s[k];
    }
  }

  /** `parts.join(sep)`. */
  function Join(parts: seq<string>, sep: string): string
  {
    if |parts| == 0 then ""
    else if |parts| == 1 then parts[0]
    else parts[0] + sep + Join(parts[1..], sep)
  }

  /** Joining one more part adds the separator and that part at the end. */
  lemma {:induction false} JoinSnoc(parts: seq<string>, last: string, sep: string)
    requires |parts| > 0
    ensures Join(parts + [last], sep) == Join(parts, sep) + sep + last
  {
    if |parts| > 1 {
      assert (parts + [last])[1..] == parts[1..] + [last];
      JoinSnoc(parts[1..], last, sep);
    }
  }

  /** A join contains each of its parts. */
  lemma {:induction false} JoinContains(parts: seq<string>, sep: string, i: nat)
    requires i < |parts|
    ensures Contains(Join(parts, sep), parts[i])
    decreases i
  {
    if |parts| == 1 {
      assert OccursAt(parts[0], parts[0], 0);
    } else if i == 0 {
      var rest := sep + Join(parts[1..], sep);
      assert Join(parts, sep) == parts[0] + rest;
      ContainsStart(parts[0], rest);
    } else {
      JoinContains(parts[1..], sep, i - 1);
      assert Join(parts, sep) == (parts[0] + sep) + Join(parts[1..], sep);
      ContainsPrepend(parts[0] + sep, Join(parts[1..], sep), parts[i]);
    }
  }

  lemma JoinContainsAll(parts: seq<string>, sep: string)
    ensures forall i :: 0 <= i < |parts| ==> Contains(Join(parts, sep), parts[i])
  {
    forall i | 0 <= i < |parts|
      ensures Contains(Join(parts, sep), parts[i])
    {
      JoinContains(parts, sep, i);
    }
  }

  /** ASCII lower-casing; other characters are unchanged. */
  function LowerAscii(c: char): char
  {
    if 'A' <= c <= 'Z' then (c as int + 32) as char else c
  }

  /** `a` and `b` are equal up to the case of ASCII letters. */
  predicate EqualsIgnoreCase(a: string, b: string)
  {
    |a| == |b| && forall i :: 0 <= i < |a| ==> LowerAscii(a[i]) == LowerAscii(b[i])
  }

  /** `s` starts with `p`, up to the case of ASCII letters. */
  predicate StartsWithIgnoreCase(s: string, p: string)
  {
    |p| <= |s| && EqualsIgnoreCase(s[..|p|], p)
  }

  /** `s.includes(sub)`. */
  predicate Contains(s: string, sub: string)
  {
    exists i :: 0 <= i <= |s| - |sub| && OccursAt(s, sub, i)
  }

  /** `sub` stands in `s` at position `i`. */
  predicate OccursAt(s: string, sub: string, i: nat)
  {
    i + |sub| <= |s| && s[i..i + |sub|] == sub
  }

  predicate IsDigit(c: char)
  {
    '0' <= c <= '9'
  }

  function DigitChar(d: nat): (c: char)
    requires d < 10
    ensures IsDigit(c)
  {
    ('0' as int + d) as char
  }

  /** The decimal numeral of `n`, as `n.toString()` writes it. */
  function NatToString(n: nat): (r: string)
    ensures |r| >= 1
    ensures forall i :: 0 <= i < |r| ==> IsDigit(r[i])
    ensures n < 10 <==> |r| == 1
  {
    if n < 10 then [DigitChar(n)] else NatToString(n / 10) + [DigitChar(n % 10)]
  }

  /** `i.toString()` for an integer. */
  function IntToString(i: int): string
  {
    if i < 0 then "-" + NatToString(-i) else NatToString(i)
  }

  /** Different naturals have different numerals. */
  lemma {:induction false} NatToStringInjective(m: nat, n: nat)
    requires NatToString(m) == NatToString(n)
    ensures m == n
  {
    var a, b := NatToString(m), NatToString(n);
    if m < 10 || n < 10 {
      assert m < 10 && n < 10;
      assert a[0] == DigitChar(m) && b[0] == DigitChar(n);
    } else {
      assert a[|a| - 1] == DigitChar(m % 10) && b[|b| - 1] == DigitChar(n % 10);
      assert a[..|a| - 1] == NatToString(m / 10);
      assert b[..|b| - 1] == NatToString(n / 10);
      NatToStringInjective(m / 10, n / 10);
    }
  }

  function DigitValue(c: char): (d: nat)
    requires IsDigit(c)
    ensures d < 10
  {
    c as int - '0' as int
  }

  /** The value of a string of decimal digits. */
  function DigitsValue(s: string): nat
    requires forall i :: 0 <= i < |s| ==> IsDigit(s[i])
  {
    if s == [] then 0 else DigitsValue(s[..|s| - 1]) * 10 + DigitValue(s[|s| - 1])
  }

  /** The longest prefix of `s` made of decimal digits. */
  function DigitPrefix(s: string): (r: string)
    ensures |r| <= |s| && r == s[..|r|]
    ensures forall i :: 0 <= i < |r| ==> IsDigit(r[i])
    ensures |r| == |s| || !IsDigit(s[|r|])
  {
    if s != [] && IsDigit(s[0]) then [s[0]] + DigitPrefix(s[1..]) else []
  }

  /**
   * `parseInt(s, 10)`: skip leading white space, read an optional sign, then the
   * longest run of decimal digits. `None` stands for NaN (no digit at all).
   */
  function ParseInt(s: string): (r: Option<int>)
  {
    var t := TrimStart(s);
    var negative := t != [] && t[0] == '-';
    var u := if t != [] && (t[0] == '-' || t[0] == '+') then t[1..] else t;
    var z := DigitPrefix(u);
    var v: int := if z == [] then 0 else DigitsValue(z);
    if z == [] then None
    else if negative then Some(-v)
    else Some(v)
  }

  /** A string of digits is its own longest digit prefix. */
  lemma {:induction false} DigitPrefixAll(s: string)
    requires forall i :: 0 <= i < |s| ==> IsDigit(s[i])
    ensures DigitPrefix(s) == s
  {
    if s != [] {
      DigitPrefixAll(s[1..]);
    }
  }

  /** The numeral of `n` reads back as `n`. */
  lemma {:induction false} DigitsValueOfNat(n: nat)
    ensures DigitsValue(NatToString(n)) == n
  {
    if n >= 10 {
      var s := NatToString(n);
      assert s[..|s| - 1] == NatToString(n / 10);
      DigitsValueOfNat(n / 10);
    }
  }

  lemma TrimStartDigits(s: string)
    requires s != [] && IsDigit(s[0])
    ensures TrimStart(s) == s
  {
    assert !IsSpace(s[0]);
  }

  /** A non-empty string of digits parses as its value. */
  lemma ParseIntDigits(s: string)
    requires s != [] && forall i :: 0 <= i < |s| ==> IsDigit(s[i])
    ensures ParseInt(s) == Some(DigitsValue(s))
  {
    TrimStartDigits(s);
    DigitPrefixAll(s);
    ParseIntUnsigned(s, DigitsValue(s));
  }

  /** A string that starts with a digit and reads as its own digit prefix parses as its value. */
  lemma ParseIntUnsigned(s: string, v: nat)
    requires s != [] && IsDigit(s[0]) && TrimStart(s) == s && DigitPrefix(s) == s
    requires forall i :: 0 <= i < |s| ==> IsDigit(s[i])
    requires v == DigitsValue(s)
    ensures ParseInt(s) == Some(v)
  {
    assert s[0] != '-' && s[0] != '+';
  }

  /** `parseInt(String(n), 10) === n` for every natural `n`. */
  lemma ParseIntNat(n: nat)
    ensures ParseInt(NatToString(n)) == Some(n)
  {
    ParseIntDigits(NatToString(n));
    DigitsValueOfNat(n);
  }

  /** `s.slice(0, n)` for a non-negative `n`. */
  function Take<T>(s: seq<T>, n: nat): (r: seq<T>)
    ensures |r| == if |s| < n then |s| else n
    ensures r == s[..|r|]
  {
    if |s| <= n then s else s[..n]
  }

  /** A string that starts with `b` contains it. */
  lemma ContainsStart(b: string, c: string)
    ensures Contains(b + c, b)
  {
    assert OccursAt(b + c, b, 0);
  }

  /** Adding text in front keeps what a string contains. */
  lemma ContainsPrepend(a: string, s: string, sub: string)
    requires Contains(s, sub)
    ensures Contains(a + s, sub)
  {
    var i :| 0 <= i <= |s| - |sub| && OccursAt(s, sub, i);
    assert (a + s)[|a| + i..|a| + i + |sub|] == s[i..i + |sub|];
    assert OccursAt(a + s, sub, |a| + i);
  }

  /** A string whose first character is not white space is not blank, whatever follows. */
  lemma NotBlankAfterHead(a: string, s: string)
    requires a != [] && !IsSpace(a[0])
    ensures !IsBlank(a + s)
  {
    assert (a + s)[0] == a[0];
  }
}
