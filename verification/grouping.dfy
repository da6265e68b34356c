/** The revenue formatter of the dashboard table (src/components/pages/Home.js,
    `formatRevenue`): the integer part of `val.toFixed(2)` is rewritten with
    `replace(/\B(?=(\d{3})+(?!\d))/g, "_")` and joined back to the decimals. */
module Grouping {
  import opened Js

  predicate IsDigit(c: char) {
    '0' <= c <= '9'
  }

  /** The regex class `\w`. */
  predicate IsWordChar(c: char) {
    IsDigit(c) || 'a' <= c <= 'z' || 'A' <= c <= 'Z' || c == '_'
  }

  predicate AllDigits(s: string) {
    forall i :: 0 <= i < |s| ==> IsDigit(s[i])
  }

  /** The length of the run of digits that starts at position `p`. */
  function DigitRun(s: string, p: nat): (n: nat)
    requires p <= |s|
    ensures p + n <= |s|
    ensures forall i :: p <= i < p + n ==> IsDigit(s[i])
    ensures p + n == |s| || !IsDigit(s[p + n])
    decreases |s| - p
  {
    if p < |s| && IsDigit(s[p]) then 1 + DigitRun(s, p + 1) else 0
  }

  /** The pattern matches (with zero width) at position `p`: `\B` holds there, and the
      lookahead `(\d{3})+(?!\d)` finds a positive multiple of three digits ending the run.
      Since the lookahead needs a digit (a word character) at `p`, `\B` needs one at `p - 1`. */
  predicate SeparatorAt(s: string, p: nat)
    requires p <= |s|
  {
    0 < p < |s| && IsWordChar(s[p - 1]) && DigitRun(s, p) > 0 && DigitRun(s, p) % 3 == 0
  }

  /** The first `n` characters of `s` after the replacement. */
  function GroupPrefix(s: string, n: nat): string
    requires n <= |s|
  {
    if n == 0 then []
    else GroupPrefix(s, n - 1) + (if SeparatorAt(s, n - 1) then "_" else "") + [s[n - 1]]
  }

  /** Every character of `r` is an underscore or a character of `s`. */
  predicate OnlyUnderscoresAdded(r: string, s: string) {
    forall i :: 0 <= i < |r| ==> r[i] == '_' || r[i] in s
  }

  lemma {:induction false} GroupPrefixAdds(s: string, n: nat)
    requires n <= |s|
    ensures |GroupPrefix(s, n)| >= n
    ensures OnlyUnderscoresAdded(GroupPrefix(s, n), s)
  {
    if n > 0 {
      GroupPrefixAdds(s, n - 1);
    }
  }

  /** `s.replace(/\B(?=(\d{3})+(?!\d))/g, "_")`: the replacement only inserts underscores. */
  function Group(s: string): (r: string)
    ensures |r| >= |s|
    ensures OnlyUnderscoresAdded(r, s)
  {
    GroupPrefixAdds(s, |s|);
    GroupPrefix(s, |s|)
  }

  /** Deleting every underscore. */
  function Ungroup(r: string): string
    decreases |r|
  {
    if r == [] then []
    else Ungroup(r[..|r| - 1]) + (if r[|r| - 1] == '_' then [] else [r[|r| - 1]])
  }

  /** Reference grouping of a digit string: split off three digits at a time from the right. */
  function Chunked(d: string): string
    decreases |d|
  {
    if |d| <= 3 then d else Chunked(d[..|d| - 3]) + "_" + d[|d| - 3..]
  }

  lemma UngroupSnoc(r: string, c: char)
    ensures Ungroup(r + [c]) == Ungroup(r) + (if c == '_' then [] else [c])
  {
  }

  /** One step of the replacement: an optional separator and then a character of the input. */
  lemma UngroupStep(g: string, sep: bool, c: char)
    requires c != '_'
    ensures Ungroup(g + (if sep then "_" else "") + [c]) == Ungroup(g) + [c]
  {
    if sep {
      UngroupSnoc(g, '_');
      UngroupSnoc(g + "_", c);
    } else {
      assert g + "" == g;
      UngroupSnoc(g, c);
    }
  }

  lemma {:induction false} UngroupPrefix(s: string, n: nat)
    requires n <= |s|
    requires '_' !in s
    ensures Ungroup(GroupPrefix(s, n)) == s[..n]
  {
    if n > 0 {
      UngroupPrefix(s, n - 1);
      assert s[n - 1] in s;
      UngroupStep(GroupPrefix(s, n - 1), SeparatorAt(s, n - 1), s[n - 1]);
      assert s[..n] == s[..n - 1] + [s[n - 1]];
    }
  }

  /** Deleting the underscores gives back the integer part, which has none of its own. */
  lemma UngroupGroup(s: string)
    requires '_' !in s
    ensures Ungroup(Group(s)) == s
  {
    UngroupPrefix(s, |s|);
  }

  /** In a digit string a separator goes before position `p` exactly when a positive
      multiple of three digits follows it. */
  lemma SeparatorInDigits(d: string, p: nat)
    requires AllDigits(d)
    requires p < |d|
    ensures DigitRun(d, p) == |d| - p
    ensures SeparatorAt(d, p) <==> 0 < p && (|d| - p) % 3 == 0
  {
  }

  /** Positions before `k` are grouped alike in two strings that agree there and whose
      separator decisions agree there. */
  lemma {:induction false} GroupPrefixAgree(s: string, t: string, k: nat)
    requires k <= |s| && k <= |t|
    requires s[..k] == t[..k]
    requires forall p :: 0 <= p < k ==> (SeparatorAt(s, p) <==> SeparatorAt(t, p))
    ensures GroupPrefix(s, k) == GroupPrefix(t, k)
  {
    if k > 0 {
      assert s[..k - 1] == t[..k - 1] by {
        assert s[..k - 1] == s[..k][..k - 1];
        assert t[..k - 1] == t[..k][..k - 1];
      }
      assert s[k - 1] == t[k - 1] by {
        assert s[k - 1] == s[..k][k - 1];
        assert t[k - 1] == t[..k][k - 1];
      }
      GroupPrefixAgree(s, t, k - 1);
    }
  }

  /** On a digit string the regex replacement is the right-to-left chunking into threes. */
  lemma {:induction false} GroupDigits(d: string)
    requires AllDigits(d)
    ensures Group(d) == Chunked(d)
    decreases |d|
  {
    if |d| <= 3 {
      forall p | 0 <= p < |d| ensures !SeparatorAt(d, p) {
        SeparatorInDigits(d, p);
      }
      GroupNoSeparator(d, |d|);
    } else {
      var e := d[..|d| - 3];
      GroupDropThree(d);
      GroupDigits(e);
      GroupLastThree(d);
    }
  }

  /** Dropping the last three digits leaves the grouping of the front unchanged. */
  lemma {:induction false} GroupDropThree(d: string)
    requires AllDigits(d) && |d| > 3
    ensures GroupPrefix(d, |d| - 3) == Group(d[..|d| - 3])
  {
    var e := d[..|d| - 3];
    forall p | 0 <= p < |d| - 3 ensures SeparatorAt(d, p) <==> SeparatorAt(e, p) {
      SeparatorInDigits(d, p);
      SeparatorInDigits(e, p);
    }
    assert d[..|d| - 3] == e[..|d| - 3];
    GroupPrefixAgree(d, e, |d| - 3);
  }

  /** The last three digits of a longer digit string follow one separator. */
  lemma {:induction false} GroupLastThree(d: string)
    requires AllDigits(d) && |d| > 3
    ensures Group(d) == GroupPrefix(d, |d| - 3) + "_" + d[|d| - 3..]
  {
    var n := |d|;
    var a := GroupPrefix(d, n - 3);
    SeparatorInDigits(d, n - 3);
    assert GroupPrefix(d, n - 2) == a + "_" + [d[n - 3]];
    SeparatorInDigits(d, n - 2);
    assert GroupPrefix(d, n - 1) == a + "_" + [d[n - 3], d[n - 2]];
    SeparatorInDigits(d, n - 1);
    assert GroupPrefix(d, n) == a + "_" + [d[n - 3], d[n - 2], d[n - 1]];
    assert d[n - 3..] == [d[n - 3], d[n - 2], d[n - 1]];
  }

  lemma {:induction false} GroupNoSeparator(s: string, k: nat)
    requires k <= |s|
    requires forall p :: 0 <= p < k ==> !SeparatorAt(s, p)
    ensures GroupPrefix(s, k) == s[..k]
  {
    if k > 0 {
      GroupNoSeparator(s, k - 1);
      assert s[..k] == s[..k - 1] + [s[k - 1]];
    }
  }

  /** A minus sign in front is not a word character, so no separator follows it and the
      digits are grouped as without it. */
  lemma {:induction false} GroupSigned(d: string)
    requires AllDigits(d)
    ensures Group("-" + d) == "-" + Chunked(d)
  {
    var s := "-" + d;
    GroupShift(d, |d|);
    GroupDigits(d);
  }

  lemma {:induction false} GroupShift(d: string, k: nat)
    requires AllDigits(d)
    requires k <= |d|
    ensures GroupPrefix("-" + d, k + 1) == "-" + GroupPrefix(d, k)
  {
    var s := "-" + d;
    if k == 0 {
      assert !SeparatorAt(s, 0);
    } else {
      GroupShift(d, k - 1);
      assert s[k] == d[k - 1];
      SeparatorInDigits(d, k - 1);
      assert DigitRun(s, k) == DigitRun(d, k - 1) by {
        DigitRunShift(d, k - 1);
      }
      assert SeparatorAt(s, k) <==> SeparatorAt(d, k - 1);
    }
  }

  lemma {:induction false} DigitRunShift(d: string, p: nat)
    requires p <= |d|
    ensures DigitRun("-" + d, p + 1) == DigitRun(d, p)
    decreases |d| - p
  {
    if p < |d| {
      assert ("-" + d)[p + 1] == d[p];
      DigitRunShift(d, p + 1);
    }
  }

  /** Grouping lengthens a non-empty digit string by one separator per full group of three
      after the leading group. */
  lemma {:induction false} ChunkedLength(d: string)
    requires d != []
    ensures |Chunked(d)| == |d| + (|d| - 1) / 3
    decreases |d|
  {
    if |d| > 3 {
      ChunkedLength(d[..|d| - 3]);
    }
  }

  /** `formatRevenue(val)` given `fixed`, the text of `val.toFixed(2)`:
      `const [intPart, decimalPart] = fixed.split(".")`, then
      `${Group(intPart)}.${decimalPart}`; a missing second field prints "undefined". */
  function FormatRevenue(fixed: string): (r: string)
    ensures Before(r, '.') == Group(Before(fixed, '.'))
    ensures '.' in r
  {
    var intPart := Before(fixed, '.');
    var decimalPart := match After(fixed, '.')
      case None => "undefined"
      case Some(rest) => Before(rest, '.');
    var g := Group(intPart);
    assert '.' !in g by {
      forall i | 0 <= i < |g| ensures g[i] != '.' {
        if g[i] != '_' {
          var k :| 0 <= k < |intPart| && intPart[k] == g[i];
        }
      }
    }
    BeforeFirst(g, '.', decimalPart);
    assert g + "." + decimalPart == g + ['.'] + decimalPart;
    assert (g + ['.'] + decimalPart)[|g|] == '.';
    g + "." + decimalPart
  }

  /** The usual case: an integer part and a fraction around one point. The integer part
      is grouped and the fraction kept. */
  lemma FormatRevenueSplit(i: string, f: string)
    requires '.' !in i && '.' !in f
    ensures FormatRevenue(i + "." + f) == Group(i) + "." + f
  {
    BeforeFirst(i, '.', f);
    AfterFirst(i, '.', f);
    BeforeAbsent(f, '.');
  }

  /** Deleting the underscores from the formatted text restores `toFixed`'s output. */
  lemma FormatRevenueUngroup(i: string, f: string)
    requires '.' !in i && '.' !in f && '_' !in i && '_' !in f
    ensures Ungroup(FormatRevenue(i + "." + f)) == i + "." + f
  {
    FormatRevenueSplit(i, f);
    UngroupGroup(i);
    UngroupJoin(i, Group(i), f);
  }

  /** Deleting underscores from `g.f` restores `i.f` when it restores `i` from `g`. */
  lemma UngroupJoin(i: string, g: string, f: string)
    requires Ungroup(g) == i && '_' !in f
    ensures Ungroup(g + "." + f) == i + "." + f
  {
    var t := "." + f;
    assert g + "." + f == g + t;
    assert i + "." + f == i + t;
    assert '_' !in t;
    UngroupAppend(g, t);
    UngroupPlain(t);
  }

  /** Text without a point (NaN's "NaN", say) gets ".undefined" appended to its grouping. */
  lemma FormatRevenueNoPoint(fixed: string)
    requires '.' !in fixed
    ensures FormatRevenue(fixed) == Group(fixed) + ".undefined"
  {
    BeforeAbsent(fixed, '.');
  }

  lemma {:induction false} UngroupAppend(r: string, t: string)
    ensures Ungroup(r + t) == Ungroup(r) + Ungroup(t)
    decreases |t|
  {
    if t != [] {
      var t' := t[..|t| - 1];
      var c := t[|t| - 1];
      assert t == t' + [c];
      assert r + t == (r + t') + [c];
      UngroupSnoc(r + t', c);
      UngroupSnoc(t', c);
      UngroupAppend(r, t');
    } else {
      assert r + t == r;
    }
  }

  lemma {:induction false} UngroupPlain(t: string)
    requires '_' !in t
    ensures Ungroup(t) == t
    decreases |t|
  {
    if t != [] {
      var t' := t[..|t| - 1];
      assert t == t' + [t[|t| - 1]];
      assert '_' !in t' by { assert forall x :: x in t' ==> x in t; }
      UngroupPlain(t');
      UngroupSnoc(t', t[|t| - 1]);
    }
  }
}
