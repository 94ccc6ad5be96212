/** The pieces of the Java platform that the plugin's own logic relies on:
    nullable references, the exceptions it can raise or let through, the
    32-bit `int`, `String.trim` and `Integer.toString`. */
module JavaLang {

  /** A Java reference that may be `null`. */
  datatype Option<+T> = None | Some(value: T)

  /** The exceptions the modelled code raises or lets through. */
  datatype Exception =
    | NullPointerException
    | IllegalArgumentException
      // thrown by net.sf.json's `getString` when the key is absent
    | JSONException
      // whatever else a lookup in a library we cannot see may throw
    | OtherException(className: string)

  /** A call that returns a value, or throws. */
  datatype Result<+T> = Ok(value: T) | Throw(error: Exception)

  /** A `void` call that returns normally, or throws. */
  datatype Outcome = Normal | Abrupt(error: Exception)

  const INT_MIN: int := -0x8000_0000
  const INT_MAX: int := 0x7fff_ffff

  /** Java's `int`. */
  type Int32 = x: int | INT_MIN <= x <= INT_MAX

  // ---------------------------------------------------------------------
  // String.trim

  /** The characters `String.trim` removes from either end of a string:
      those whose code is at most U+0020, which covers the ASCII control
      characters as well as the space. */
  predicate IsTrimmable(c: char) {
    c <= ' '
  }

  /** Every character of `s` is one that `trim` removes. */
  predicate IsBlank(s: string) {
    forall i :: 0 <= i < |s| ==> IsTrimmable(s[i])
  }

  /** `s` without its leading trimmable characters: a suffix of `s`. */
  function TrimStart(s: string): (r: string)
    ensures |r| <= |s| && r == s[|s| - |r|..]
    ensures r != [] ==> !IsTrimmable(r[0])
  {
    if s != [] && IsTrimmable(s[0]) then TrimStart(s[1..]) else s
  }

  /** `s` without its trailing trimmable characters: a prefix of `s`. */
  function TrimEnd(s: string): (r: string)
    ensures |r| <= |s| && r == s[..|r|]
    ensures r != [] ==> !IsTrimmable(r[|r| - 1])
  {
    if s != [] && IsTrimmable(s[|s| - 1]) then TrimEnd(s[..|s| - 1]) else s
  }

  /** Every character of `s` from `lo` up to `hi` is trimmable. */
  predicate BlankBetween(s: string, lo: int, hi: int)
    requires 0 <= lo <= hi <= |s|
  {
    forall i :: lo <= i < hi ==> IsTrimmable(s[i])
  }

  /** `m` is the part of `s` that starts at `k`, and every character of `s`
      outside it is trimmable. */
  predicate IsMiddle(s: string, k: int, m: string) {
    0 <= k <= |s| - |m| && m == s[k..k + |m|] && BlankBetween(s, 0, k) && BlankBetween(s, k + |m|, |s|)
  }

  /** `String.trim`: `s` without its leading and trailing trimmable
      characters, so neither end of the result is trimmable. */
  function Trim(s: string): (r: string)
    ensures |r| <= |s|
    ensures r != [] ==> !IsTrimmable(r[0]) && !IsTrimmable(r[|r| - 1])
  {
    TrimEnd(TrimStart(s))
  }

  /** What `trim` returns is the part of the input between a blank prefix
      and a blank suffix. */
  lemma TrimIsMiddle(s: string)
    ensures exists k :: IsMiddle(s, k, Trim(s))
  {
    var t := TrimStart(s);
    var r := TrimEnd(t);
    TrimStartDropsBlank(s);
    TrimEndDropsBlank(t);
    assert r == s[|s| - |t|..|s| - |t| + |r|];
    assert BlankBetween(s, |s| - |t| + |r|, |s|) by {
      forall i | |s| - |t| + |r| <= i < |s| ensures IsTrimmable(s[i]) {
        assert s[i] == t[i - (|s| - |t|)];
      }
    }
    assert IsMiddle(s, |s| - |t|, r);
    assert r == Trim(s);
  }

  /** What `TrimStart` drops is blank. */
  lemma {:induction false} TrimStartDropsBlank(s: string)
    ensures BlankBetween(s, 0, |s| - |TrimStart(s)|)
  {
    if s != [] && IsTrimmable(s[0]) {
      TrimStartDropsBlank(s[1..]);
      forall i | 0 < i < |s| - |TrimStart(s)| ensures IsTrimmable(s[i]) {
        assert s[i] == s[1..][i - 1];
      }
    }
  }

  /** What `TrimEnd` drops is blank. */
  lemma {:induction false} TrimEndDropsBlank(s: string)
    ensures BlankBetween(s, |TrimEnd(s)|, |s|)
  {
    if s != [] && IsTrimmable(s[|s| - 1]) {
      var s' := s[..|s| - 1];
      TrimEndDropsBlank(s');
      assert forall i :: |TrimEnd(s)| <= i < |s| - 1 ==> s[i] == s'[i];
    }
  }

  /** Dropping a trimmable first character keeps a string blank, and
      adding one in front of a blank string keeps it blank. */
  lemma BlankCons(s: string)
    requires s != [] && IsTrimmable(s[0])
    ensures IsBlank(s) <==> IsBlank(s[1..])
  {
    assert forall i :: 0 <= i < |s| - 1 ==> s[1..][i] == s[i + 1];
  }

  lemma {:induction false} TrimStartEmptyIff(s: string)
    ensures TrimStart(s) == [] <==> IsBlank(s)
  {
    if s != [] && IsTrimmable(s[0]) {
      TrimStartEmptyIff(s[1..]);
      BlankCons(s);
    } else if s != [] {
      assert !IsTrimmable(s[0]);
    }
  }

  /** `s.trim().isEmpty()` holds exactly when `s` is blank. */
  lemma {:induction false} TrimEmptyIff(s: string)
    ensures Trim(s) == [] <==> IsBlank(s)
  {
    TrimStartEmptyIff(s);
    var t := TrimStart(s);
    if t != [] {
      // TrimEnd keeps a prefix, and that prefix cannot lose t[0]
      assert !IsTrimmable(t[0]);
      if TrimEnd(t) == [] {
        TrimEndNonEmpty(t);
      }
    }
  }

  lemma {:induction false} TrimEndNonEmpty(t: string)
    requires t != [] && !IsTrimmable(t[0])
    ensures TrimEnd(t) != []
  {
    if IsTrimmable(t[|t| - 1]) {
      assert |t| > 1;
      TrimEndNonEmpty(t[..|t| - 1]);
    }
  }

  /** Leading blanks before a string that does not start with a trimmable
      character are exactly what `TrimStart` drops. */
  lemma {:induction false} TrimStartPadded(p: string, rest: string)
    requires IsBlank(p)
    requires rest == [] || !IsTrimmable(rest[0])
    ensures TrimStart(p + rest) == rest
  {
    if p != [] {
      assert (p + rest)[0] == p[0];
      assert (p + rest)[1..] == p[1..] + rest;
      TrimStartPadded(p[1..], rest);
    } else {
      assert p + rest == rest;
    }
  }

  /** Trailing blanks after a string that does not end with a trimmable
      character are exactly what `TrimEnd` drops. */
  lemma {:induction false} TrimEndPadded(rest: string, q: string)
    requires IsBlank(q)
    requires rest == [] || !IsTrimmable(rest[|rest| - 1])
    ensures TrimEnd(rest + q) == rest
  {
    if q != [] {
      var q' := q[..|q| - 1];
      assert (rest + q)[|rest + q| - 1] == q[|q| - 1];
      assert (rest + q)[..|rest + q| - 1] == rest + q';
      TrimEndPadded(rest, q');
    } else {
      assert rest + q == rest;
    }
  }

  /** `trim` is determined by its result's shape: whatever sits between a
      blank prefix and a blank suffix, with no trimmable character at
      either end, is what `trim` returns. */
  lemma TrimOfPadded(p: string, m: string, q: string)
    requires IsBlank(p) && IsBlank(q)
    requires m == [] || (!IsTrimmable(m[0]) && !IsTrimmable(m[|m| - 1]))
    ensures Trim(p + m + q) == m
  {
    if m == [] {
      assert p + m + q == p + q;
      assert IsBlank(p + q) by {
        forall i | 0 <= i < |p + q| ensures IsTrimmable((p + q)[i]) {
          if i >= |p| { assert (p + q)[i] == q[i - |p|]; }
        }
      }
      TrimEmptyIff(p + q);
    } else {
      assert p + m + q == p + (m + q);
      assert (m + q)[0] == m[0];
      TrimStartPadded(p, m + q);
      TrimEndPadded(m, q);
    }
  }

  // ---------------------------------------------------------------------
  // Integer.toString, as used by string concatenation with an int

  predicate IsDigit(c: char) {
    '0' <= c <= '9'
  }

  function DigitChar(d: nat): (c: char)
    requires d < 10
    ensures IsDigit(c) && c as int - '0' as int == d
  {
    ('0' as int + d) as char
  }

  function DigitValue(c: char): (d: nat)
    requires IsDigit(c)
    ensures d < 10
  {
    c as int - '0' as int
  }

  /** The decimal digits of `n`, most significant first, without leading
      zeros. */
  function NatToString(n: nat): (r: string)
    ensures |r| >= 1
    ensures forall i :: 0 <= i < |r| ==> IsDigit(r[i])
    ensures r[0] == '0' ==> n == 0 && r == "0"
    decreases n
  {
    if n < 10 then [DigitChar(n)] else NatToString(n / 10) + [DigitChar(n % 10)]
  }

  /** `Integer.toString(n)`: a minus sign before the digits of a negative. */
  function IntToString(n: int): (r: string)
    ensures |r| >= 1
    ensures r[0] == '-' <==> n < 0
  {
    if n < 0 then "-" + NatToString(-n) else NatToString(n)
  }

  /** The value of a non-empty string of decimal digits. */
  function DigitsValue(s: string): nat
    requires |s| >= 1 && forall i :: 0 <= i < |s| ==> IsDigit(s[i])
  {
    if |s| == 1 then DigitValue(s[0])
    else DigitsValue(s[..|s| - 1]) * 10 + DigitValue(s[|s| - 1])
  }

  /** A reference reader of decimal integers (an optional minus sign, then
      digits), used to state that `IntToString` loses nothing. */
  function ParseInt(s: string): Option<int> {
    if |s| >= 1 && forall i :: 0 <= i < |s| ==> IsDigit(s[i]) then
      Some(DigitsValue(s))
    else if |s| >= 2 && s[0] == '-' && forall i :: 1 <= i < |s| ==> IsDigit(s[i]) then
      var v: int := DigitsValue(s[1..]);
      Some(-v)
    else
      None
  }

  lemma {:induction false} NatToStringRoundTrip(n: nat)
    ensures DigitsValue(NatToString(n)) == n
    decreases n
  {
    if n >= 10 {
      var r := NatToString(n);
      NatToStringRoundTrip(n / 10);
      assert r[..|r| - 1] == NatToString(n / 10);
    }
  }

  /** Reading back the decimal text of an int gives the int. */
  lemma IntToStringRoundTrip(n: int)
    ensures ParseInt(IntToString(n)) == Some(n)
  {
    if n < 0 {
      var r := IntToString(n);
      assert r[1..] == NatToString(-n);
      assert !IsDigit(r[0]);
      assert forall i :: 1 <= i < |r| ==> IsDigit(r[i]) by {
        forall i | 1 <= i < |r| ensures IsDigit(r[i]) {
          assert r[i] == r[1..][i - 1];
        }
      }
      NatToStringRoundTrip(-n);
    } else {
      NatToStringRoundTrip(n);
    }
  }
}
