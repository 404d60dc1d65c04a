/** The `AltUnit` patch that `SaveTourTool.activate` applies to a tour's XML
    before writing it: for `k` from 1 to 10, in that order, every
    `AltUnit="k"` becomes `AltUnit="k-1"`.

    `PatchAltUnits` is the loop as the tool runs it (ten `str.replace` calls);
    `Patch` is an independent single left-to-right pass that decrements each
    unit it meets exactly once. `PatchAltUnits` is proved to compute `Patch`,
    and the lemmas below say what `Patch` does to each piece of text. */
module TourPatch {
  import opened Text

  /** `'AltUnit="{0}"'.format(k)` for `0 <= k <= 10`. */
  function AltUnit(k: nat): (p: string)
    requires k <= 10
    ensures |p| == UnitLength(k)
    ensures p[0] == 'A'
    ensures forall i :: 1 <= i < |p| ==> p[i] != 'A'
  {
    "AltUnit=\"" + (if k < 10 then [DigitChar(k)] else "10") + "\""
  }

  /** The pattern is the number printed in decimal between the quotes. */
  lemma AltUnitFormat(k: nat)
    requires k <= 10
    ensures AltUnit(k) == "AltUnit=\"" + Decimal(k) + "\""
  {
    if k == 10 {
      assert Decimal(10) == Decimal(1) + [DigitChar(0)];
    }
  }

  function UnitLength(k: nat): nat {
    if k == 10 then 12 else 11
  }

  /** Two different units never start at the same place. */
  lemma UnitsDistinct(j: nat, d: nat, x: string)
    requires j <= 10 && d <= 10
    requires AltUnit(j) <= AltUnit(d) + x
    ensures j == d
  {
    var p, q := AltUnit(j), AltUnit(d) + x;
    assert p[9] == q[9] && p[10] == q[10];
  }

  /** No occurrence of a unit `j` starts inside a different unit `d`. */
  lemma NoUnitInside(d: nat, j: nat, t: string)
    requires d <= 10 && j <= 10 && d != j
    ensures forall i :: 0 <= i < |AltUnit(d)| ==> !StartsAt(AltUnit(d) + t, AltUnit(j), i)
  {
    var u := AltUnit(d);
    forall i | 0 <= i < |u| ensures !StartsAt(u + t, AltUnit(j), i) {
      if i == 0 {
        assert (u + t)[0..] == u + t;
        if AltUnit(j) <= u + t {
          UnitsDistinct(j, d, t);
        }
      } else {
        assert (u + t)[i..][0] == u[i];
      }
    }
  }

  /** The unit `k` in 1..10 whose `AltUnit="k"` starts `s`, or 0 if none does. */
  function LeadingUnit(s: string): (r: nat)
    ensures r <= 10
    ensures r != 0 ==> AltUnit(r) <= s
  {
    if |s| < 11 || s[..9] != "AltUnit=\"" || !('1' <= s[9] <= '9') then 0
    else if s[10] == '"' then s[9] as int - '0' as int
    else if s[9] == '1' && s[10] == '0' && |s| >= 12 && s[11] == '"' then 10
    else 0
  }

  /** When `LeadingUnit` finds nothing, no unit 1..10 starts `s`. */
  lemma NoLeadingUnit(s: string, j: nat)
    requires LeadingUnit(s) == 0 && 1 <= j <= 10
    ensures !(AltUnit(j) <= s)
  {
  }

  lemma LeadingUnitOf(k: nat, x: string)
    requires 1 <= k <= 10
    ensures LeadingUnit(AltUnit(k) + x) == k
  {
    var r := LeadingUnit(AltUnit(k) + x);
    if r != 0 {
      UnitsDistinct(r, k, x);
    }
  }

  /** One left-to-right pass that rewrites each unit `k` with `1 <= k <= m` to
      `k-1` and keeps every other character. */
  function PatchUpTo(s: string, m: nat): string
    requires m <= 10
    decreases |s|
  {
    if s == [] then []
    else
      var k := LeadingUnit(s);
      if k == 0 then [s[0]] + PatchUpTo(s[1..], m)
      else (if k <= m then AltUnit(k - 1) else AltUnit(k)) + PatchUpTo(s[UnitLength(k)..], m)
  }

  /** The intended effect of the patch: every unit 1..10 decremented once. */
  function Patch(s: string): string {
    PatchUpTo(s, 10)
  }

  lemma {:induction false} PatchUpToZero(s: string)
    ensures PatchUpTo(s, 0) == s
    decreases |s|
  {
    if s != [] {
      var k := LeadingUnit(s);
      if k == 0 {
        PatchUpToZero(s[1..]);
        assert s == [s[0]] + s[1..];
      } else {
        PatchUpToZero(s[UnitLength(k)..]);
        assert s == AltUnit(k) + s[UnitLength(k)..];
      }
    }
  }

  /** A pass changes nothing before the first character `'A'`, so it keeps a
      prefix that contains no `'A'`, and creates none. */
  lemma {:induction false} PrefixNoA(x: string, w: string, m: nat)
    requires m <= 10
    requires forall i :: 0 <= i < |w| ==> w[i] != 'A'
    ensures w <= PatchUpTo(x, m) <==> w <= x
    decreases |x|
  {
    if w != [] && x != [] {
      var k := LeadingUnit(x);
      var p := PatchUpTo(x, m);
      if k == 0 {
        var t := PatchUpTo(x[1..], m);
        assert p == [x[0]] + t;
        PrefixNoA(x[1..], w[1..], m);
        assert w <= p <==> w[0] == x[0] && w[1..] <= t;
        assert w <= x <==> w[0] == x[0] && w[1..] <= x[1..];
      } else {
        assert x[0] == AltUnit(k)[0] == 'A';
        assert p[0] == 'A';
      }
    }
  }

  /** Replacing unit `m+1` after a plain character: the character is kept. */
  lemma StepPlain(s: string, m: nat)
    requires m < 10 && s != [] && LeadingUnit(s) == 0
    ensures Replace(PatchUpTo(s, m), AltUnit(m + 1), AltUnit(m))
            == [s[0]] + Replace(PatchUpTo(s[1..], m), AltUnit(m + 1), AltUnit(m))
  {
    var pat, rep := AltUnit(m + 1), AltUnit(m);
    var t := PatchUpTo(s[1..], m);
    assert PatchUpTo(s, m) == [s[0]] + t;
    PrefixNoA(s[1..], pat[1..], m);
    assert !StartsAt([s[0]] + t, pat, 0) by {
      NoLeadingUnit(s, m + 1);
      assert ([s[0]] + t)[0..] == [s[0]] + t;
    }
    ReplaceSkip([s[0]], t, pat, rep);
  }

  /** Replacing unit `m+1` after a unit `k` the pass already handled: `k` is
      written out as the `m+1` pass writes it. */
  lemma StepUnit(s: string, m: nat, k: nat)
    requires m < 10 && 1 <= k <= 10 && LeadingUnit(s) == k
    ensures Replace(PatchUpTo(s, m), AltUnit(m + 1), AltUnit(m))
            == (if k <= m + 1 then AltUnit(k - 1) else AltUnit(k))
               + Replace(PatchUpTo(s[UnitLength(k)..], m), AltUnit(m + 1), AltUnit(m))
  {
    var pat, rep := AltUnit(m + 1), AltUnit(m);
    var t := PatchUpTo(s[UnitLength(k)..], m);
    if k <= m {
      assert PatchUpTo(s, m) == AltUnit(k - 1) + t;
      NoUnitInside(k - 1, m + 1, t);
      ReplaceSkip(AltUnit(k - 1), t, pat, rep);
    } else if k == m + 1 {
      assert PatchUpTo(s, m) == pat + t;
      assert pat <= pat + t;
      assert (pat + t)[|pat|..] == t;
    } else {
      assert PatchUpTo(s, m) == AltUnit(k) + t;
      NoUnitInside(k, m + 1, t);
      ReplaceSkip(AltUnit(k), t, pat, rep);
    }
  }

  /** Replacing unit `m+1` in a pass that stopped at `m` extends the pass to
      `m+1`: the heart of the proof that the tool's ascending loop never
      decrements a unit twice. */
  lemma {:induction false} Step(s: string, m: nat)
    requires m < 10
    ensures Replace(PatchUpTo(s, m), AltUnit(m + 1), AltUnit(m)) == PatchUpTo(s, m + 1)
    decreases |s|
  {
    if s != [] {
      var k := LeadingUnit(s);
      if k == 0 {
        StepPlain(s, m);
        Step(s[1..], m);
      } else {
        StepUnit(s, m, k);
        Step(s[UnitLength(k)..], m);
      }
    }
  }

  /** The loop of `SaveTourTool.activate`: for `unit_int` in `range(1, 11)`,
      if `AltUnit="unit_int"` is in the text, replace it by
      `AltUnit="unit_int - 1"`. */
  method PatchAltUnits(tourxml: string) returns (patched: string)
    ensures patched == Patch(tourxml)
  {
    patched := tourxml;
    PatchUpToZero(tourxml);
    var unit := 1;
    while unit < 11
      invariant 1 <= unit <= 11
      invariant patched == PatchUpTo(tourxml, unit - 1)
    {
      var altunit := AltUnit(unit);
      if Contains(patched, altunit) {
        patched := Replace(patched, altunit, AltUnit(unit - 1));
      } else {
        ReplaceAbsent(patched, altunit, AltUnit(unit - 1));
      }
      Step(tourxml, unit - 1);
      unit := unit + 1;
    }
  }

  /** Each unit 1..10 is decremented, and the text after it is patched on its
      own: the unit just written is never looked at again. */
  lemma PatchDecrements(k: nat, rest: string)
    requires 1 <= k <= 10
    ensures Patch(AltUnit(k) + rest) == AltUnit(k - 1) + Patch(rest)
  {
    var s := AltUnit(k) + rest;
    LeadingUnitOf(k, rest);
    assert s[UnitLength(k)..] == rest;
  }

  /** No unit starts at position `i` of `s`. */
  predicate NoUnitAt(s: string, i: nat)
    requires i <= |s|
  {
    LeadingUnit(s[i..]) == 0
  }

  /** A block in which no unit starts is copied unchanged. */
  lemma {:induction false} PatchVerbatim(u: string, x: string, m: nat)
    requires m <= 10
    requires forall i :: 0 <= i < |u| ==> NoUnitAt(u + x, i)
    ensures PatchUpTo(u + x, m) == u + PatchUpTo(x, m)
  {
    if u == [] {
      assert u + x == x;
      assert u + PatchUpTo(x, m) == PatchUpTo(x, m);
    } else {
      var t, r := u[1..], PatchUpTo(x, m);
      assert PatchUpTo(u + x, m) == [u[0]] + PatchUpTo(t + x, m) by {
        PatchStep(u, x, m);
      }
      assert PatchUpTo(t + x, m) == t + r by {
        NoUnitInTail(u, x);
        PatchVerbatim(t, x, m);
      }
      assert [u[0]] + (t + r) == u + r by {
        assert u == [u[0]] + t;
      }
    }
  }

  /** One character where no unit starts is copied. */
  lemma PatchStep(u: string, x: string, m: nat)
    requires m <= 10 && u != [] && NoUnitAt(u + x, 0)
    ensures PatchUpTo(u + x, m) == [u[0]] + PatchUpTo(u[1..] + x, m)
  {
    var s := u + x;
    assert s[0..] == s;
    assert s[1..] == u[1..] + x;
  }

  lemma NoUnitInTail(u: string, x: string)
    requires u != []
    requires forall i :: 0 <= i < |u| ==> NoUnitAt(u + x, i)
    ensures forall i :: 0 <= i < |u[1..]| ==> NoUnitAt(u[1..] + x, i)
  {
    forall i | 0 <= i < |u[1..]| ensures NoUnitAt(u[1..] + x, i) {
      assert NoUnitAt(u + x, i + 1);
      assert (u[1..] + x)[i..] == (u + x)[i + 1..];
    }
  }

  /** `AltUnit="0"` is left alone. */
  lemma PatchKeepsZero(rest: string)
    ensures Patch(AltUnit(0) + rest) == AltUnit(0) + Patch(rest)
  {
    var u := AltUnit(0);
    forall i | 0 <= i < |u| ensures NoUnitAt(u + rest, i) {
      var r := LeadingUnit((u + rest)[i..]);
      if r != 0 && i == 0 {
        assert (u + rest)[0..] == u + rest;
        UnitsDistinct(r, 0, rest);
      }
    }
    PatchVerbatim(u, rest, 10);
  }

  /** Text that contains none of `AltUnit="1"` .. `AltUnit="10"` is left
      unchanged. */
  lemma PatchWithoutUnits(s: string)
    requires forall k :: 1 <= k <= 10 ==> !Contains(s, AltUnit(k))
    ensures Patch(s) == s
  {
    forall i | 0 <= i < |s| ensures NoUnitAt(s + [], i) {
      assert (s + [])[i..] == s[i..];
      var r := LeadingUnit(s[i..]);
      if r != 0 {
        ContainsAt(s, AltUnit(r));
      }
    }
    PatchVerbatim(s, [], 10);
    assert s + [] == s;
  }
}
