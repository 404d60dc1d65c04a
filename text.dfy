/** The handful of Python string operations the modelled code relies on:
    substring membership (`in`), `str.replace`, `str.endswith`, `str.lower`
    on ASCII, and the integer formats `"{0}"` and `"{0:08x}"`. */
module Text {

  /** Python's `pat in s`: `pat` occurs in `s` as a contiguous block. */
  predicate Contains(s: string, pat: string)
    decreases |s|
  {
    pat <= s || (s != [] && Contains(s[1..], pat))
  }

  /** The recursive definition of `Contains` agrees with "some suffix of `s`
      starts with `pat`". */
  lemma {:induction false} ContainsAt(s: string, pat: string)
    ensures Contains(s, pat) <==> exists i :: 0 <= i <= |s| && pat <= s[i..]
  {
    if pat <= s {
      assert s[0..] == s;
    } else if s == [] {
      assert forall i :: 0 <= i <= |s| ==> s[i..] == s;
    } else {
      ContainsAt(s[1..], pat);
      assert s[0..] == s;
      forall i | 0 <= i < |s| ensures s[1..][i..] == s[i + 1..] { }
      if Contains(s, pat) {
        var i :| 0 <= i <= |s[1..]| && pat <= s[1..][i..];
        assert pat <= s[i + 1..];
      } else {
        forall i | 1 <= i <= |s| ensures !(pat <= s[i..]) {
          assert s[1..][i - 1..] == s[i..];
        }
      }
    }
  }

  /** Python's `s.replace(pat, rep)`: every occurrence of `pat`, found left to
      right and without overlap, is replaced by `rep`; an empty `pat` inserts
      `rep` before every character and at the end. */
  function Replace(s: string, pat: string, rep: string): string
    decreases |s|
  {
    if pat == [] then rep + (if s == [] then [] else [s[0]] + Replace(s[1..], pat, rep))
    else if pat <= s then rep + Replace(s[|pat|..], pat, rep)
    else if s == [] then []
    else [s[0]] + Replace(s[1..], pat, rep)
  }

  /** Replacing a pattern that does not occur leaves the text unchanged. */
  lemma {:induction false} ReplaceAbsent(s: string, pat: string, rep: string)
    requires pat != [] && !Contains(s, pat)
    ensures Replace(s, pat, rep) == s
    decreases |s|
  {
    if s != [] {
      ReplaceAbsent(s[1..], pat, rep);
    }
  }

  /** `pat` occurs in `s` starting at position `i`. */
  predicate StartsAt(s: string, pat: string, i: nat)
    requires i <= |s|
  {
    pat <= s[i..]
  }

  /** Replacing skips over a block `u` in which no occurrence of `pat` starts. */
  lemma {:induction false} ReplaceSkip(u: string, x: string, pat: string, rep: string)
    requires pat != []
    requires forall i :: 0 <= i < |u| ==> !StartsAt(u + x, pat, i)
    ensures Replace(u + x, pat, rep) == u + Replace(x, pat, rep)
  {
    if u == [] {
      assert u + x == x;
      assert u + Replace(x, pat, rep) == Replace(x, pat, rep);
    } else {
      var t, r := u[1..], Replace(x, pat, rep);
      assert Replace(u + x, pat, rep) == [u[0]] + Replace(t + x, pat, rep) by {
        ReplaceStep(u, x, pat, rep);
      }
      assert Replace(t + x, pat, rep) == t + r by {
        NoMatchInTail(u, x, pat);
        ReplaceSkip(t, x, pat, rep);
      }
      assert [u[0]] + (t + r) == u + r by {
        assert u == [u[0]] + t;
      }
    }
  }

  /** One character of a block where `pat` does not start is copied. */
  lemma ReplaceStep(u: string, x: string, pat: string, rep: string)
    requires pat != [] && u != [] && !StartsAt(u + x, pat, 0)
    ensures Replace(u + x, pat, rep) == [u[0]] + Replace(u[1..] + x, pat, rep)
  {
    var s := u + x;
    assert s[0..] == s;
    assert s[1..] == u[1..] + x;
  }

  lemma NoMatchInTail(u: string, x: string, pat: string)
    requires u != []
    requires forall i :: 0 <= i < |u| ==> !StartsAt(u + x, pat, i)
    ensures forall i :: 0 <= i < |u[1..]| ==> !StartsAt(u[1..] + x, pat, i)
  {
    forall i | 0 <= i < |u[1..]| ensures !StartsAt(u[1..] + x, pat, i) {
      assert !StartsAt(u + x, pat, i + 1);
      assert (u[1..] + x)[i..] == (u + x)[i + 1..];
    }
  }

  /** Python's `s.endswith(suffix)`. */
  predicate EndsWith(s: string, suffix: string) {
    |suffix| <= |s| && s[|s| - |suffix|..] == suffix
  }

  /** `str.lower` restricted to ASCII letters (the only ones it meets here). */
  function LowerChar(c: char): char {
    if 'A' <= c <= 'Z' then (c as int - 'A' as int + 'a' as int) as char else c
  }

  function Lower(s: string): (r: string)
    ensures |r| == |s|
  {
    seq(|s|, i requires 0 <= i < |s| => LowerChar(s[i]))
  }

  function DigitChar(d: nat): char
    requires d < 10
  {
    ('0' as int + d) as char
  }

  /** `"{0}".format(n)` for a non-negative integer. */
  function Decimal(n: nat): (r: string)
    ensures |r| >= 1
    ensures n >= 10 ==> |r| >= 2
    ensures forall i :: 0 <= i < |r| ==> '0' <= r[i] <= '9'
    decreases n
  {
    if n < 10 then [DigitChar(n)] else Decimal(n / 10) + [DigitChar(n % 10)]
  }

  /** Distinct numbers print differently. */
  lemma {:induction false} DecimalInjective(a: nat, b: nat)
    ensures Decimal(a) == Decimal(b) ==> a == b
  {
    if Decimal(a) == Decimal(b) {
      if a >= 10 && b >= 10 {
        var da, db := Decimal(a), Decimal(b);
        assert da[|da| - 1] == DigitChar(a % 10);
        assert db[|db| - 1] == DigitChar(b % 10);
        assert a % 10 == b % 10;
        assert da[..|da| - 1] == Decimal(a / 10);
        assert db[..|db| - 1] == Decimal(b / 10);
        DecimalInjective(a / 10, b / 10);
      } else if a < 10 && b < 10 {
        assert Decimal(a)[0] == DigitChar(a);
        assert Decimal(b)[0] == DigitChar(b);
      }
    }
  }

  function HexDigit(d: nat): (c: char)
    requires d < 16
    ensures HexDigitValue(c) == d
    ensures c in "0123456789abcdef"
  {
    if d < 10 then ('0' as int + d) as char else ('a' as int + d - 10) as char
  }

  function HexDigitValue(c: char): nat {
    if '0' <= c <= '9' then c as int - '0' as int
    else if 'a' <= c <= 'f' then c as int - 'a' as int + 10
    else 0
  }

  function Pow16(n: nat): (p: nat)
    ensures p >= 1
  {
    if n == 0 then 1 else 16 * Pow16(n - 1)
  }

  /** Python's `"{0:0<width>x}".format(v)` for a `v` that fits in `width`
      lower-case hexadecimal digits. */
  function HexFixed(v: nat, width: nat): (r: string)
    requires v < Pow16(width)
    ensures |r| == width
    ensures forall i :: 0 <= i < |r| ==> r[i] in "0123456789abcdef"
    decreases width
  {
    if width == 0 then []
    else
      assert v / 16 < Pow16(width - 1) by {
        assert v < 16 * Pow16(width - 1);
      }
      HexFixed(v / 16, width - 1) + [HexDigit(v % 16)]
  }

  /** Reads a string of hexadecimal digits back as a number. */
  function HexValue(s: string): nat {
    if s == [] then 0 else HexValue(s[..|s| - 1]) * 16 + HexDigitValue(s[|s| - 1])
  }

  lemma {:induction false} HexRoundTrip(v: nat, width: nat)
    requires v < Pow16(width)
    ensures HexValue(HexFixed(v, width)) == v
  {
    if width > 0 {
      assert v < 16 * Pow16(width - 1);
      assert v / 16 < Pow16(width - 1);
      var h := HexFixed(v, width);
      assert h[..|h| - 1] == HexFixed(v / 16, width - 1);
      assert h[|h| - 1] == HexDigit(v % 16);
      HexRoundTrip(v / 16, width - 1);
    }
  }
}
