/** String primitives the core relies on, stated with Python's meaning:
    `str.strip()`, `str.startswith`, `str.endswith`, slicing `s[:n]`,
    `str.replace` of one character, and `str(n)` for a natural number.
    Strings are sequences of Unicode scalar values; unlike Python's `str`
    they cannot hold lone surrogate code points. */
module Text {

  /** The code points for which Python's `str.isspace()` holds; these are the
      characters `str.strip()` removes when called without arguments. */
  predicate IsSpace(c: char) {
    || ('\U{09}' <= c <= '\U{0D}')
    || ('\U{1C}' <= c <= '\U{20}')
    || c == '\U{85}' || c == '\U{A0}' || c == '\U{1680}'
    || ('\U{2000}' <= c <= '\U{200A}')
    || c == '\U{2028}' || c == '\U{2029}' || c == '\U{202F}' || c == '\U{205F}'
    || c == '\U{3000}'
  }

  predicate AllSpace(s: string) {
    forall i :: 0 <= i < |s| ==> IsSpace(s[i])
  }

  /** Neither end of `s` is whitespace. */
  predicate IsTrimmed(s: string) {
    |s| == 0 || (!IsSpace(s[0]) && !IsSpace(s[|s| - 1]))
  }

  /** `s` occurs in `t` as a contiguous run of characters. */
  ghost predicate IsInfix(s: string, t: string) {
    exists lo, hi :: 0 <= lo <= hi <= |t| && t[lo..hi] == s
  }

  predicate StartsWith(s: string, prefix: string) {
    |prefix| <= |s| && s[..|prefix|] == prefix
  }

  predicate EndsWith(s: string, suffix: string) {
    |suffix| <= |s| && s[|s| - |suffix|..] == suffix
  }

  lemma StartsWithTransitive(s: string, p: string, q: string)
    requires StartsWith(s, p) && StartsWith(p, q)
    ensures StartsWith(s, q)
  {
    assert s[..|q|] == s[..|p|][..|q|];
  }

  /** Python's `s.lstrip()`: drops the longest whitespace prefix. */
  function TrimLeft(s: string): (r: string)
    ensures |r| <= |s| && r == s[|s| - |r|..]
    ensures |r| == 0 || !IsSpace(r[0])
    ensures AllSpace(s[..|s| - |r|])
    decreases |s|
  {
    if |s| > 0 && IsSpace(s[0]) then
      var r := TrimLeft(s[1..]);
      assert s[..|s| - |r|] == [s[0]] + s[1..][..|s| - 1 - |r|];
      r
    else s
  }

  /** Python's `s.rstrip()`: drops the longest whitespace suffix. */
  function TrimRight(s: string): (r: string)
    ensures |r| <= |s| && r == s[..|r|]
    ensures |r| == 0 || !IsSpace(r[|r| - 1])
    ensures AllSpace(s[|r|..])
    decreases |s|
  {
    if |s| > 0 && IsSpace(s[|s| - 1]) then
      var r := TrimRight(s[..|s| - 1]);
      assert s[|r|..] == s[..|s| - 1][|r|..] + [s[|s| - 1]];
      r
    else s
  }

  /** Python's `s.strip()`: the text between the leading and the trailing
      whitespace, which is itself free of whitespace at both ends. */
  function Trim(s: string): (r: string)
    ensures IsTrimmed(r)
    ensures |r| <= |s|
  {
    var l := TrimLeft(s);
    var r := TrimRight(l);
    assert IsTrimmed(r) by {
      if |r| > 0 {
        assert r[0] == l[0];
      }
    }
    r
  }

  /** What `strip()` removes is whitespace on both sides of the result, which
      sits in the input at offset `lo`. */
  lemma TrimRemovesOnlySpace(s: string) returns (lo: nat)
    ensures lo + |Trim(s)| <= |s|
    ensures s[lo..lo + |Trim(s)|] == Trim(s)
    ensures AllSpace(s[..lo]) && AllSpace(s[lo + |Trim(s)|..])
  {
    var l := TrimLeft(s);
    var r := TrimRight(l);
    lo := |s| - |l|;
    assert l == s[lo..];
    assert AllSpace(s[..lo]);
    assert r == l[..|r|];
    assert s[lo..lo + |r|] == r;
    assert s[lo + |r|..] == l[|r|..];
    assert AllSpace(l[|r|..]);
  }

  /** The stripped text is a piece of the original. */
  lemma TrimIsInfix(s: string)
    ensures IsInfix(Trim(s), s)
  {
    var lo := TrimRemovesOnlySpace(s);
    assert s[lo..lo + |Trim(s)|] == Trim(s);
  }

  lemma {:induction false} TrimLeftSkipsSpace(a: string, t: string)
    requires AllSpace(a)
    requires |t| == 0 || !IsSpace(t[0])
    ensures TrimLeft(a + t) == t
    decreases |a|
  {
    if |a| > 0 {
      assert (a + t)[1..] == a[1..] + t;
      assert AllSpace(a[1..]) by {
        forall i | 0 <= i < |a[1..]| ensures IsSpace(a[1..][i]) {
          assert a[1..][i] == a[i + 1];
        }
      }
      TrimLeftSkipsSpace(a[1..], t);
    } else {
      assert a + t == t;
    }
  }

  lemma {:induction false} TrimRightSkipsSpace(t: string, b: string)
    requires AllSpace(b)
    requires |t| == 0 || !IsSpace(t[|t| - 1])
    ensures TrimRight(t + b) == t
    decreases |b|
  {
    if |b| > 0 {
      assert (t + b)[..|t + b| - 1] == t + b[..|b| - 1];
      var b' := b[..|b| - 1];
      assert AllSpace(b') by {
        forall i | 0 <= i < |b'| ensures IsSpace(b'[i]) {
          assert b'[i] == b[i];
        }
      }
      TrimRightSkipsSpace(t, b');
    } else {
      assert t + b == t;
    }
  }

  /** `strip()` removes exactly the surrounding whitespace: whatever
      whitespace surrounds a trimmed text, stripping gives that text back. */
  lemma {:induction false} TrimRemovesExactlySurroundingSpace(a: string, r: string, b: string)
    requires AllSpace(a) && AllSpace(b) && IsTrimmed(r)
    ensures Trim(a + r + b) == r
  {
    if |r| == 0 {
      assert a + r + b == (a + b) + "";
      assert AllSpace(a + b) by {
        forall i | 0 <= i < |a + b| ensures IsSpace((a + b)[i]) {
          if i < |a| {
            assert (a + b)[i] == a[i];
          } else {
            assert (a + b)[i] == b[i - |a|];
          }
        }
      }
      TrimLeftSkipsSpace(a + b, "");
    } else {
      assert a + r + b == a + (r + b);
      TrimLeftSkipsSpace(a, r + b);
      TrimRightSkipsSpace(r, b);
    }
  }

  /** Stripping text that is already trimmed changes nothing. */
  lemma TrimOfTrimmed(s: string)
    requires IsTrimmed(s)
    ensures Trim(s) == s
  {
    assert "" + s + "" == s;
    TrimRemovesExactlySurroundingSpace("", s, "");
  }

  /** Stripping is idempotent. */
  lemma TrimIdempotent(s: string)
    ensures Trim(Trim(s)) == Trim(s)
  {
    TrimOfTrimmed(Trim(s));
  }

  lemma InfixReflexive(s: string)
    ensures IsInfix(s, s)
  {
    assert s[0..|s|] == s;
  }

  lemma InfixTransitive(s: string, m: string, t: string)
    requires IsInfix(s, m) && IsInfix(m, t)
    ensures IsInfix(s, t)
  {
    var lo, hi :| 0 <= lo <= hi <= |m| && m[lo..hi] == s;
    var lo', hi' :| 0 <= lo' <= hi' <= |t| && t[lo'..hi'] == m;
    assert t[lo' + lo..lo' + hi] == s by {
      forall k | 0 <= k < hi - lo ensures t[lo' + lo..lo' + hi][k] == s[k] {
        assert s[k] == m[lo + k] == t[lo' + lo + k];
      }
    }
  }

  lemma SuffixIsInfix(t: string, k: nat)
    requires k <= |t|
    ensures IsInfix(t[k..], t)
  {
    assert t[k..|t|] == t[k..];
  }

  lemma PrefixIsInfix(t: string, k: nat)
    requires k <= |t|
    ensures IsInfix(t[..k], t)
  {
    assert t[0..k] == t[..k];
  }

  /** Python's `s[:n]` for `n >= 0`: the first `n` elements, or all of `s`
      when it is shorter. */
  function Take<T>(s: seq<T>, n: nat): (r: seq<T>)
    ensures |r| == if |s| <= n then |s| else n
    ensures r == s[..|r|]
  {
    if |s| <= n then s else s[..n]
  }

  /** Python's `s.replace(from, to)` for one-character arguments. */
  function ReplaceChar(s: string, from: char, to: char): (r: string)
    ensures |r| == |s|
    ensures forall i :: 0 <= i < |s| ==> r[i] == (if s[i] == from then to else s[i])
    decreases |s|
  {
    if |s| == 0 then ""
    else [if s[0] == from then to else s[0]] + ReplaceChar(s[1..], from, to)
  }

  /** After replacing `from` by a different character no `from` remains, and
      nothing else changes: the replacement leaves `s` as it is exactly when
      `from` does not occur in it. */
  lemma ReplaceCharRemoves(s: string, from: char, to: char)
    requires from != to
    ensures from !in ReplaceChar(s, from, to)
    ensures ReplaceChar(s, from, to) == s <==> from !in s
  {
    var r := ReplaceChar(s, from, to);
    if from in s {
      var i :| 0 <= i < |s| && s[i] == from;
      assert r[i] != s[i];
    } else {
      assert r == s;
    }
  }

  function DigitChar(d: nat): (c: char)
    requires d < 10
    ensures '0' <= c <= '9'
  {
    ((('0' as int) + d) as char)
  }

  predicate IsDigits(s: string) {
    forall i :: 0 <= i < |s| ==> '0' <= s[i] <= '9'
  }

  /** Python's `str(n)` for a natural number: its decimal digits, without
      leading zeros. */
  function NatToDecimal(n: nat): (r: string)
    ensures |r| >= 1 && IsDigits(r)
    ensures r[0] == '0' ==> n == 0
    decreases n
  {
    if n < 10 then [DigitChar(n)] else NatToDecimal(n / 10) + [DigitChar(n % 10)]
  }

  /** The number a string of decimal digits denotes. */
  function DecimalValue(s: string): nat
    requires IsDigits(s)
    decreases |s|
  {
    if |s| == 0 then 0
    else DecimalValue(s[..|s| - 1]) * 10 + (s[|s| - 1] as int - '0' as int)
  }

  /** Reading back the rendered digits gives the number again, so `str(n)`
      is injective on naturals. */
  lemma {:induction false} DecimalRoundTrip(n: nat)
    ensures DecimalValue(NatToDecimal(n)) == n
    decreases n
  {
    var r := NatToDecimal(n);
    if n >= 10 {
      DecimalRoundTrip(n / 10);
      assert r[..|r| - 1] == NatToDecimal(n / 10);
    }
  }
}
