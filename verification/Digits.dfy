/** Texts of digits and the numbers they are. */
module Digits {
  predicate IsDigit(c: char) {
    '0' <= c <= '9'
  }

  predicate AllDigits(s: string) {
    forall i :: 0 <= i < |s| ==> IsDigit(s[i])
  }

  function Digit(c: char): (d: nat)
    requires IsDigit(c)
    ensures d < 10 && ('0' as int + d) as char == c
  {
    c as int - '0' as int
  }

  /** The number a text of digits is. */
  function NumberOf(s: string): nat
    requires AllDigits(s)
  {
    if s == "" then 0 else 10 * NumberOf(s[..|s| - 1]) + Digit(s[|s| - 1])
  }

  function Pow10(w: nat): (p: nat)
    ensures p >= 1
  {
    if w == 0 then 1 else 10 * Pow10(w - 1)
  }

  /** The last `w` digits of `n`, with leading zeros. */
  function Padded(n: nat, w: nat): (s: string)
    ensures |s| == w && AllDigits(s)
    decreases w
  {
    if w == 0 then "" else Padded(n / 10, w - 1) + [('0' as int + n % 10) as char]
  }

  lemma {:induction false} PaddedNumber(n: nat, w: nat)
    requires n < Pow10(w)
    ensures NumberOf(Padded(n, w)) == n
    decreases w
  {
    if w > 0 {
      PaddedNumber(n / 10, w - 1);
      var s := Padded(n, w);
      assert s[..|s| - 1] == Padded(n / 10, w - 1);
    }
  }

  lemma {:induction false} NumberPadded(s: string)
    requires AllDigits(s)
    ensures NumberOf(s) < Pow10(|s|) && Padded(NumberOf(s), |s|) == s
    decreases |s|
  {
    if s != "" {
      NumberPadded(s[..|s| - 1]);
      assert s == s[..|s| - 1] + [s[|s| - 1]];
    }
  }

  /** As many zeros. */
  function Zeros(w: nat): (s: string)
    ensures |s| == w && AllDigits(s) && forall i :: 0 <= i < w ==> s[i] == '0'
  {
    seq(w, i => '0')
  }

  lemma {:induction false} NumberPrefix(s: string, w: nat)
    requires AllDigits(s) && w <= |s|
    ensures NumberOf(s[..w]) == NumberOf(s) / Pow10(|s| - w)
    decreases |s|
  {
    if w == |s| {
      assert s[..w] == s;
    } else {
      var front := s[..|s| - 1];
      assert front[..w] == s[..w];
      NumberPrefix(front, w);
      var p := Pow10(|front| - w);
      DivTen(NumberOf(front), Digit(s[|s| - 1]), p);
    }
  }

  lemma DivTen(n: nat, d: nat, p: nat)
    requires d < 10 && p >= 1
    ensures (10 * n + d) / (10 * p) == n / p
  {
    var q, r := n / p, n % p;
    assert n == q * p + r;
    assert 10 * n + d == q * (10 * p) + (10 * r + d);
    assert 0 <= 10 * r + d < 10 * p;
    DivUnique(10 * n + d, 10 * p, q, 10 * r + d);
  }

  lemma DivUnique(n: int, p: int, q: int, r: int)
    requires p >= 1 && n == q * p + r && 0 <= r < p
    ensures n / p == q
  {
    var q2, r2 := n / p, n % p;
    assert n == p * q2 + r2;
    assert (q2 - q) * p == r - r2;
    Multiple(q2 - q, p);
  }

  lemma Multiple(k: int, p: int)
    requires p >= 1
    ensures k >= 1 ==> k * p >= p
    ensures k <= -1 ==> k * p <= -p
  {
    if k >= 1 { assert k * p == p + (k - 1) * p; }
    if k <= -1 { assert k * p == -p + (k + 1) * p; }
  }

  /** A number without leading zeros. */
  function NatText(n: nat): (s: string)
    ensures |s| >= 1 && AllDigits(s)
  {
    var last := [('0' as int + n % 10) as char];
    if n < 10 then last else NatText(n / 10) + last
  }

  lemma {:induction false} NatRead(n: nat)
    ensures NumberOf(NatText(n)) == n
    decreases n
  {
    var s := NatText(n);
    if n >= 10 {
      NatRead(n / 10);
      assert s[..|s| - 1] == NatText(n / 10);
    } else {
      assert s[..|s| - 1] == "";
    }
  }
}
