/** Polynomial evaluation: the server's player_poly_at, which keeps powers in a double, and
    the client's poly_at, which keeps them in a 32-bit int
    (the-great-approximator/server_logic.cpp:290-298, client_logic.cpp:444-453). */
module Poly {
  const INT_MAX := 0x7FFF_FFFF

  function Pow(x: int, n: nat): int {
    if n == 0 then 1 else Pow(x, n - 1) * x
  }

  /** The polynomial with these coefficients, lowest degree first. */
  function Value(coeffs: seq<int>, x: int): int {
    if coeffs == [] then 0
    else Value(coeffs[..|coeffs| - 1], x) + coeffs[|coeffs| - 1] * Pow(x, |coeffs| - 1)
  }

  /** The same polynomial by Horner's rule. */
  function Horner(coeffs: seq<int>, x: int): int {
    if coeffs == [] then 0 else coeffs[0] + x * Horner(coeffs[1..], x)
  }

  lemma {:induction false} HornerStep(coeffs: seq<int>, last: int, x: int)
    ensures Horner(coeffs + [last], x) == Horner(coeffs, x) + last * Pow(x, |coeffs|)
  {
    if coeffs == [] {
      assert Horner([last], x) == last + x * Horner([], x);
    } else {
      var rest := coeffs[1..];
      HornerStep(rest, last, x);
      assert (coeffs + [last])[1..] == rest + [last];
      Distribute(x, Horner(rest, x), last, Pow(x, |rest|));
    }
  }

  lemma Distribute(x: int, h: int, last: int, power: int)
    ensures x * (h + last * power) == x * h + last * (power * x)
  {
  }

  lemma {:induction false} ValueIsHorner(coeffs: seq<int>, x: int)
    ensures Value(coeffs, x) == Horner(coeffs, x)
  {
    if coeffs != [] {
      var k := |coeffs| - 1;
      ValueIsHorner(coeffs[..k], x);
      HornerStep(coeffs[..k], coeffs[k], x);
      assert coeffs == coeffs[..k] + [coeffs[k]];
    }
  }

  /** Two's complement wrap-around of a 32-bit int. */
  function Wrap32(v: int): (w: int)
    ensures -INT_MAX - 1 <= w <= INT_MAX
    ensures -INT_MAX - 1 <= v <= INT_MAX ==> w == v
    ensures (w - v) % 0x1_0000_0000 == 0
  {
    (v + 0x8000_0000) % 0x1_0000_0000 - 0x8000_0000
  }

  /** x_pow in the client after n iterations. */
  function Pow32(x: int, n: nat): int {
    if n == 0 then 1 else Wrap32(Pow32(x, n - 1) * x)
  }

  function Value32(coeffs: seq<int>, x: int): int {
    if coeffs == [] then 0
    else Value32(coeffs[..|coeffs| - 1], x) + coeffs[|coeffs| - 1] * Pow32(x, |coeffs| - 1)
  }

  /** The server's loop. */
  method PlayerPolyAt(coefficients: seq<int>, x: int) returns (result: int)
    ensures result == Value(coefficients, x)
  {
    result := 0;
    var xPow, i := 1, 0;
    while i < |coefficients|
      invariant 0 <= i <= |coefficients| && xPow == Pow(x, i) && result == Value(coefficients[..i], x)
    {
      assert coefficients[..i + 1][..i] == coefficients[..i];
      result := result + coefficients[i] * xPow;
      xPow := xPow * x;
      i := i + 1;
    }
    assert coefficients[..i] == coefficients;
  }

  /** The client's loop.  The last product is computed and not used. */
  method PolyAt(coeffs: seq<int>, x: int) returns (result: int)
    ensures result == Value32(coeffs, x)
  {
    result := 0;
    var xPow, i := 1, 0;
    while i < |coeffs|
      invariant 0 <= i <= |coeffs| && xPow == Pow32(x, i) && result == Value32(coeffs[..i], x)
    {
      assert coeffs[..i + 1][..i] == coeffs[..i];
      result := result + coeffs[i] * xPow;
      xPow := Wrap32(xPow * x);
      i := i + 1;
    }
    assert coeffs[..i] == coeffs;
  }

  lemma {:induction false} PowMonotone(x: nat, y: nat, n: nat)
    requires x <= y
    ensures 0 <= Pow(x, n) <= Pow(y, n)
  {
    if n > 0 {
      PowMonotone(x, y, n - 1);
      ProductMonotone(Pow(x, n - 1), Pow(y, n - 1), x, y);
    }
  }

  lemma ProductMonotone(a: nat, b: nat, x: nat, y: nat)
    requires a <= b && x <= y
    ensures a * x <= b * y
  {
    assert a * x <= b * x <= b * y;
  }

  lemma {:induction false} PowGrows(x: nat, m: nat, n: nat)
    requires x > 0 && m <= n
    ensures 0 < Pow(x, m) <= Pow(x, n)
    decreases n
  {
    if m < n {
      PowGrows(x, m, n - 1);
      assert Pow(x, n - 1) <= Pow(x, n - 1) * x;
    } else if n > 0 {
      PowGrows(x, n - 1, n - 1);
      assert 0 < Pow(x, n - 1) * x;
    }
  }

  lemma {:induction false} PowersFit(x: nat, n: nat)
    requires Pow(x, n) <= INT_MAX
    ensures Pow32(x, n) == Pow(x, n) >= 0
    decreases n
  {
    if n > 0 {
      if x > 0 {
        PowGrows(x, n - 1, n);
        PowersFit(x, n - 1);
      }
    }
  }

  lemma {:induction false} ValuesAgree(coeffs: seq<int>, x: nat, n: nat)
    requires |coeffs| <= n + 1 && Pow(x, n) <= INT_MAX
    ensures Value32(coeffs, x) == Value(coeffs, x)
    decreases |coeffs|
  {
    if coeffs != [] {
      var top := |coeffs| - 1;
      ValuesAgree(coeffs[..top], x, n);
      if x > 0 {
        PowGrows(x, top, n);
        PowersFit(x, top);
      } else {
        PowersOfZero(top);
      }
    }
  }

  lemma {:induction false} PowersOfZero(n: nat)
    ensures Pow32(0, n) == Pow(0, n)
  {
    if n > 0 {
      PowersOfZero(n - 1);
    }
  }

  function Monomial(n: nat): (coeffs: seq<int>)
    ensures |coeffs| == n + 1
  {
    seq(n, i => 0) + [1]
  }

  lemma {:induction false} ValueOfZeros(n: nat, x: int)
    ensures Value(seq(n, i => 0), x) == Value32(seq(n, i => 0), x) == 0
  {
    if n > 0 {
      assert seq(n, i => 0)[..n - 1] == seq(n - 1, i => 0);
      ValueOfZeros(n - 1, x);
    }
  }

  lemma ValueOfMonomial(n: nat, x: int)
    ensures Value(Monomial(n), x) == Pow(x, n) && Value32(Monomial(n), x) == Pow32(x, n)
  {
    assert Monomial(n)[..n] == seq(n, i => 0);
    ValueOfZeros(n, x);
  }

  /** The client evaluates every polynomial of degree n correctly at x exactly when x^n fits
      in a 32-bit int. */
  lemma ClientEvaluatesExactly(x: nat, n: nat)
    ensures (forall coeffs: seq<int> :: |coeffs| == n + 1 ==> Value32(coeffs, x) == Value(coeffs, x))
            <==> Pow(x, n) <= INT_MAX
  {
    if Pow(x, n) <= INT_MAX {
      forall coeffs: seq<int> | |coeffs| == n + 1
        ensures Value32(coeffs, x) == Value(coeffs, x)
      {
        ValuesAgree(coeffs, x, n);
      }
    } else {
      ValueOfMonomial(n, x);
      assert |Monomial(n)| == n + 1 && Value32(Monomial(n), x) != Value(Monomial(n), x);
    }
  }

  /** With the largest degree the server accepts, the client is already wrong at point 15. */
  lemma ClientWrongAt15()
    ensures Value32(Monomial(8), 15) != Value(Monomial(8), 15)
  {
    ValueOfMonomial(8, 15);
    assert Pow(15, 4) == 50625;
    assert Pow(15, 8) == 2_562_890_625;
  }
}
