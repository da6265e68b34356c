/** The few JavaScript value semantics the dashboard pages rely on:
    optional values, numbers with NaN and their truthiness, ASCII lower-casing,
    `String.prototype.includes`, the first field of `split`, and decimal text. */
module Js {

  datatype Option<T> = None | Some(value: T)

  /** A JavaScript number: a finite value or NaN. The infinities are not modelled. */
  datatype Num = Finite(x: real) | NaN {

    /** `Boolean(n)`: 0 and NaN are falsy. */
    predicate Truthy() {
      Finite? && x != 0.0
    }

    /** `n || 0` */
    function OrZero(): (r: real)
      ensures Truthy() ==> r == x
      ensures !Truthy() ==> r == 0.0
    {
      if Truthy() then x else 0.0
    }
  }

  /** `a - b`; NaN is contagious. */
  function Sub(a: Num, b: Num): (r: Num)
    ensures r.Finite? <==> a.Finite? && b.Finite?
    ensures r.Finite? ==> r.x + b.x == a.x
  {
    if a.Finite? && b.Finite? then Finite(a.x - b.x) else NaN
  }

  /** `a > b`; every comparison with NaN is false. */
  predicate Greater(a: Num, b: Num)
    ensures Greater(a, b) <==> Sub(a, b).Finite? && Sub(a, b).x > 0.0
  {
    a.Finite? && b.Finite? && a.x > b.x
  }

  predicate IsUpper(c: char) {
    'A' <= c <= 'Z'
  }

  function LowerChar(c: char): char {
    if IsUpper(c) then (c as int + 32) as char else c
  }

  /** `toLowerCase()`, restricted to the ASCII letters. */
  function ToLower(s: string): (r: string)
    ensures |r| == |s|
    ensures forall i :: 0 <= i < |s| ==> r[i] == LowerChar(s[i])
    ensures forall i :: 0 <= i < |s| ==> !IsUpper(r[i])
  {
    seq(|s|, i requires 0 <= i < |s| => LowerChar(s[i]))
  }

  /** `s.includes(t)` */
  predicate Contains(s: string, t: string)
    ensures Contains(s, t) ==> |t| <= |s|
    ensures t <= s ==> Contains(s, t)
    decreases |s|
  {
    t <= s || (s != [] && Contains(s[1..], t))
  }

  /** `s.split(c)[0]`: the text before the first `c`, or all of `s` when there is none. */
  function Before(s: string, c: char): (r: string)
    ensures r <= s
    ensures c !in r
    ensures |r| < |s| ==> s[|r|] == c
    decreases |s|
  {
    if s == [] || s[0] == c then [] else [s[0]] + Before(s[1..], c)
  }

  /** The text after the first `c`, if `s` contains one. */
  function After(s: string, c: char): (r: Option<string>)
    ensures r.None? <==> c !in s
    ensures r.Some? ==> s == Before(s, c) + [c] + r.value
    decreases |s|
  {
    if s == [] then None
    else if s[0] == c then Some(s[1..])
    else After(s[1..], c)
  }

  /** `t` occurs in `s` starting at position `i`. */
  predicate OccursAt(s: string, t: string, i: int) {
    0 <= i && i + |t| <= |s| && s[i..i + |t|] == t
  }

  /** `s.includes(t)` holds exactly when `t` occurs in `s` at some position. */
  lemma {:induction false} ContainsAt(s: string, t: string)
    ensures Contains(s, t) <==> exists i :: OccursAt(s, t, i)
    decreases |s|
  {
    if t <= s {
      assert OccursAt(s, t, 0);
    } else if s != [] {
      ContainsAt(s[1..], t);
      if Contains(s[1..], t) {
        var i :| OccursAt(s[1..], t, i);
        assert s[i + 1..i + 1 + |t|] == s[1..][i..i + |t|];
        assert OccursAt(s, t, i + 1);
      } else {
        forall i | OccursAt(s, t, i)
          ensures false
        {
          if i != 0 {
            assert s[i..i + |t|] == s[1..][i - 1..i - 1 + |t|];
            assert OccursAt(s[1..], t, i - 1);
          }
        }
      }
    }
  }

  /** Without a `c`, `split(c)[0]` is the whole text. */
  lemma BeforeAbsent(s: string, c: char)
    requires c !in s
    ensures Before(s, c) == s
  {
  }

  /** The first field ends at the first `c`. */
  lemma {:induction false} BeforeFirst(s: string, c: char, t: string)
    requires c !in s
    ensures Before(s + [c] + t, c) == s
    decreases |s|
  {
    var u := s + [c] + t;
    if s != [] {
      assert u[1..] == s[1..] + [c] + t;
      BeforeFirst(s[1..], c, t);
    }
  }

  /** The text after the first `c` is everything past it. */
  lemma {:induction false} AfterFirst(s: string, c: char, t: string)
    requires c !in s
    ensures After(s + [c] + t, c) == Some(t)
    decreases |s|
  {
    var u := s + [c] + t;
    if s != [] {
      assert u[1..] == s[1..] + [c] + t;
      AfterFirst(s[1..], c, t);
    } else {
      assert u[1..] == t;
    }
  }

  function DigitChar(d: nat): char
    requires d < 10
  {
    "0123456789"[d]
  }

  function DigitValue(c: char): nat
    requires '0' <= c <= '9'
  {
    c as int - '0' as int
  }

  /** The number a string of decimal digits spells, most significant digit first. */
  function DigitsValue(s: string): nat
    requires forall i :: 0 <= i < |s| ==> '0' <= s[i] <= '9'
    decreases |s|
  {
    if s == [] then 0 else 10 * DigitsValue(s[..|s| - 1]) + DigitValue(s[|s| - 1])
  }

  /** Decimal text of a natural number, as a template literal renders it: digits only,
      no leading zero, spelling `n`. */
  function NatText(n: nat): (r: string)
    ensures |r| > 0
    ensures forall i :: 0 <= i < |r| ==> '0' <= r[i] <= '9'
    ensures r[0] != '0' || n == 0
    ensures DigitsValue(r) == n
    decreases n
  {
    if n < 10 then [DigitChar(n)]
    else
      var front := NatText(n / 10);
      var r := front + [DigitChar(n % 10)];
      assert r[..|r| - 1] == front;
      r
  }
}
