/** Powers of ten, and the digits of a number. */
module Powers {
  import opened Texts

  function Pow10(n: nat): (p: nat)
    ensures p > 0
  {
    if n == 0 then 1 else 10 * Pow10(n - 1)
  }

  function Quotient(c: nat, p: nat): nat
    requires p > 0
  {
    c / p
  }

  function Remainder(c: nat, p: nat): nat
    requires p > 0
  {
    c % p
  }

  function Zeros(n: nat): string { seq(n, i => '0') }

  /** `r` in exactly `k` digits. */
  function Pad(r: nat, k: nat): (s: string)
    ensures |s| == k
  {
    if k == 0 then [] else Pad(r / 10, k - 1) + [DIGITS[r % 10]]
  }

  /* ---- Products, one fact at a time ---- */

  lemma {:induction false} MulMono(a: nat, b: nat, m: nat)
    requires a <= b
    ensures a * m <= b * m
    decreases m
  {
    if m > 0 { MulMono(a, b, m - 1); }
  }

  lemma TenTimes(a: nat, b: nat)
    ensures a * (10 * b) == 10 * (a * b) && (10 * a) * b == 10 * (a * b)
  {
  }

  lemma UniqueDivision(x: nat, d: nat, q: nat, r: nat)
    requires d > 0 && r < d && x == q * d + r
    ensures x / d == q && x % d == r
  {
    var w := x / d;
    assert w * d <= x < w * d + d;
    if w > q {
      MulMono(q + 1, w, d);
      assert false;
    }
    if w < q {
      MulMono(w + 1, q, d);
      assert false;
    }
  }

  /** Scaling both sides of a division by the same factor. */
  lemma ScaleDivision(c: nat, p: nat, m: nat)
    requires p > 0 && m > 0
    ensures p * m > 0 && (c * m) / (p * m) == c / p && (c * m) % (p * m) == (c % p) * m
  {
    var q, r := c / p, c % p;
    MulMono(1, p, m);
    MulMono(r + 1, p, m);
    Regroup(q, p, r, m);
    UniqueDivision(c * m, p * m, q, r * m);
  }

  lemma Regroup(q: nat, p: nat, r: nat, m: nat)
    ensures (q * p + r) * m == q * (p * m) + r * m
  {
  }

  /* ---- Powers and digits ---- */

  lemma {:induction false} PowAdd(a: nat, b: nat)
    ensures Pow10(a + b) == Pow10(a) * Pow10(b)
    decreases a
  {
    if a > 0 {
      PowAdd(a - 1, b);
      TenTimes(Pow10(a - 1), Pow10(b));
    }
  }

  lemma {:induction false} PowGrows(a: nat, b: nat)
    requires a < b
    ensures Pow10(a) < Pow10(b)
    decreases b
  {
    if a < b - 1 { PowGrows(a, b - 1); }
  }

  /** A number has `k` digits exactly when it lies between two powers of ten. */
  lemma {:induction false} DigitsBound(n: nat)
    ensures |NatText(n)| >= 1 && n < Pow10(|NatText(n)|) && (|NatText(n)| > 1 ==> Pow10(|NatText(n)| - 1) <= n)
    decreases n
  {
    if n >= 10 { DigitsBound(n / 10); }
  }

  lemma FitsIff(n: nat, k: nat)
    requires k >= 1
    ensures |NatText(n)| <= k <==> n < Pow10(k)
  {
    DigitsBound(n);
    var d := |NatText(n)|;
    if d < k { PowGrows(d, k); }
    if k < d - 1 { PowGrows(k, d - 1); }
  }

  lemma {:induction false} NumberConcat(a: string, b: string)
    requires AllDigits(a) && AllDigits(b)
    ensures AllDigits(a + b) && Number(a + b) == Number(a) * Pow10(|b|) + Number(b)
    decreases |b|
  {
    if b == [] {
      assert a + b == a;
      assert Number(a) * 1 == Number(a);
    } else {
      var n := |b| - 1;
      NumberConcat(a, b[..n]);
      assert (a + b)[..|a + b| - 1] == a + b[..n] && (a + b)[|a + b| - 1] == b[n];
      var digit := b[n] as int - '0' as int;
      assert Number(a + b) == 10 * Number(a + b[..n]) + digit;
      assert Number(b) == 10 * Number(b[..n]) + digit;
      hide Number, Pow10;
      PowTen(n);
      TenTimes(Number(a), Pow10(n));
    }
  }

  lemma PowTen(n: nat)
    ensures Pow10(n + 1) == 10 * Pow10(n)
  {
  }

  lemma {:induction false} PadReads(r: nat, k: nat)
    requires r < Pow10(k)
    ensures AllDigits(Pad(r, k)) && Number(Pad(r, k)) == r
    decreases k
  {
    if k > 0 {
      PadReads(r / 10, k - 1);
      DigitSpells(r % 10);
      var s := Pad(r, k);
      assert s[..|s| - 1] == Pad(r / 10, k - 1);
    }
  }

  lemma ZerosGrow(j: nat)
    ensures Zeros(j + 1) == Zeros(j) + ['0'] && Zeros(0) == []
  {
  }

  lemma PadTen(x: nat, k: nat)
    ensures Pad(10 * x, k + 1) == Pad(x, k) + ['0']
  {
    assert (10 * x) / 10 == x && (10 * x) % 10 == 0;
  }

  lemma NatTen(x: nat)
    requires x > 0
    ensures NatText(10 * x) == NatText(x) + ['0']
  {
    assert (10 * x) / 10 == x && (10 * x) % 10 == 0;
  }

  lemma {:induction false} PadZeros(r: nat, k: nat, j: nat)
    ensures Pad(r * Pow10(j), k + j) == Pad(r, k) + Zeros(j)
    decreases j
  {
    if j == 0 {
      ZerosGrow(0);
      assert r * 1 == r;
    } else {
      PadZeros(r, k, j - 1);
      hide Pad, Pow10, Zeros;
      PowTen(j - 1);
      TenTimes(r, Pow10(j - 1));
      ZerosGrow(j - 1);
      PadTen(r * Pow10(j - 1), k + j - 1);
      assert Pad(r, k) + (Zeros(j - 1) + ['0']) == Pad(r, k) + Zeros(j - 1) + ['0'];
    }
  }

  lemma {:induction false} NatZeros(n: nat, j: nat)
    requires n > 0
    ensures n * Pow10(j) > 0 && NatText(n * Pow10(j)) == NatText(n) + Zeros(j)
    decreases j
  {
    if j == 0 {
      ZerosGrow(0);
      assert n * 1 == n;
    } else {
      NatZeros(n, j - 1);
      hide NatText, Pow10, Zeros;
      PowTen(j - 1);
      TenTimes(n, Pow10(j - 1));
      ZerosGrow(j - 1);
      NatTen(n * Pow10(j - 1));
      assert NatText(n) + (Zeros(j - 1) + ['0']) == NatText(n) + Zeros(j - 1) + ['0'];
    }
  }

  lemma {:induction false} NumberZeros(j: nat)
    ensures AllDigits(Zeros(j)) && Number(Zeros(j)) == 0
    decreases j
  {
    if j > 0 {
      NumberZeros(j - 1);
      ZerosGrow(j - 1);
      assert Zeros(j)[..j - 1] == Zeros(j - 1);
    }
  }
}
