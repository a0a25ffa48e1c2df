/** The binomial distribution in exact arithmetic: the closed-form sum a loop computes, and the
    probability it stands for, defined trial by trial. */
module Binomial {

  function Pow(p: real, k: nat): real {
    if k == 0 then 1.0 else Times(p, Pow(p, k - 1))
  }

  /** The number of k-element subsets of n elements. */
  function Choose(n: nat, k: nat): nat {
    if k == 0 then 1 else if n == 0 then 0 else Choose(n - 1, k - 1) + Choose(n - 1, k)
  }

  function Factorial(n: nat): nat {
    if n == 0 then 1 else n * Factorial(n - 1)
  }

  /** The chance of exactly k wins in n trials, as a closed form. */
  function Term(n: nat, k: nat, p: real): real {
    if k > n then 0.0 else Product(Choose(n, k) as real, Pow(p, k), Pow(1.0 - p, n - k))
  }

  function Product(c: real, x: real, y: real): real {
    c * x * y
  }

  /** The sum of the terms from `low` up to and including n. */
  function TermsFrom(low: nat, n: nat, p: real): real
    decreases n + 1 - low
  {
    if low > n then 0.0 else Term(n, low, p) + TermsFrom(low + 1, n, p)
  }

  /** The probability of at least `wins` wins in n independent trials that each win with chance p. */
  function AtLeast(n: nat, wins: int, p: real): real {
    if wins <= 0 then 1.0
    else if n == 0 then 0.0
    else Mix(p, AtLeast(n - 1, wins - 1, p), AtLeast(n - 1, wins, p))
  }

  /** The expectation over one trial: x after a win, y after a loss. */
  function Mix(p: real, x: real, y: real): real {
    Times(p, x) + Times(1.0 - p, y)
  }

  function Times(p: real, x: real): real {
    p * x
  }

  // ---- The closed form -----------------------------------------------------------------------

  lemma {:induction false} ChooseBeyond(n: nat, k: nat)
    requires k > n
    ensures Choose(n, k) == 0
  {
    if n != 0 {
      ChooseBeyond(n - 1, k - 1);
      ChooseBeyond(n - 1, k);
    }
  }

  /** The recursion counts what the factorial formula counts. */
  lemma {:induction false} ChooseFactorials(n: nat, k: nat)
    requires k <= n
    ensures Choose(n, k) * (Factorial(k) * Factorial(n - k)) == Factorial(n)
  {
    if k == 0 {
    } else if k == n {
      ChooseBeyond(n - 1, n);
      ChooseFactorials(n - 1, k - 1);
      assert Factorial(0) == 1;
      Rearrange(Choose(n - 1, k - 1), k, Factorial(k - 1), 1);
    } else {
      ChooseFactorials(n - 1, k - 1);
      ChooseFactorials(n - 1, k);
      var a, b, f, g := Choose(n - 1, k - 1), Choose(n - 1, k), Factorial(k - 1), Factorial(n - 1 - k);
      assert Factorial(k) == k * f && Factorial(n - k) == (n - k) * g && n - 1 - (k - 1) == n - k;
      SplitProduct(a, b, k, n - k, f, g, Factorial(n - 1));
    }
  }

  lemma Rearrange(a: nat, k: nat, f: nat, g: nat)
    ensures a * ((k * f) * g) == k * (a * (f * g))
  {
    calc {
      a * ((k * f) * g);
      a * (k * (f * g));
      k * (a * (f * g));
    }
  }

  lemma SplitProduct(a: nat, b: nat, k: nat, m: nat, f: nat, g: nat, whole: nat)
    requires a * (f * (m * g)) == whole && b * ((k * f) * g) == whole
    ensures (a + b) * ((k * f) * (m * g)) == (k + m) * whole
  {
    calc {
      (a + b) * ((k * f) * (m * g));
      a * ((k * f) * (m * g)) + b * ((k * f) * (m * g));
      { Rearrange(a, k, f, m * g); }
      k * (a * (f * (m * g))) + b * ((k * f) * (m * g));
      { assert (k * f) * (m * g) == (m * (k * f)) * g; Rearrange(b, m, k * f, g); }
      k * whole + m * whole;
      (k + m) * whole;
    }
  }

  /** Pascal's rule on products. */
  lemma ProductSplits(a: real, b: real, p: real, x: real, y: real)
    ensures Product(a + b, Times(p, x), Times(1.0 - p, y))
         == Mix(p, Product(a, x, Times(1.0 - p, y)), Product(b, Times(p, x), y))
  {
    var q := 1.0 - p;
    var u := (p * x) * (q * y);
    assert (a + b) * (p * x) * (q * y) == (a + b) * u == a * u + b * u;
    assert a * u == p * (a * x * (q * y));
    assert b * u == q * (b * (p * x) * y);
  }

  lemma ProductWon(a: real, p: real, x: real)
    ensures Product(a, Times(p, x), 1.0) == Mix(p, Product(a, x, 1.0), 0.0)
  {
  }

  lemma PowStep(p: real, k: nat)
    ensures Pow(p, k + 1) == Times(p, Pow(p, k)) && Pow(p, 0) == 1.0
  {
  }

  /** Pascal's rule for the terms. */
  lemma TermSplits(n: nat, k: nat, p: real)
    requires n > 0 && k > 0
    ensures Term(n, k, p) == Mix(p, Term(n - 1, k - 1, p), Term(n - 1, k, p))
  {
    hide Product;
    hide Mix;
    hide Pow;
    hide Times;
    MixSame(p, 0.0);
    if k < n {
      PowStep(p, k - 1);
      PowStep(1.0 - p, n - 1 - k);
      ProductSplits(Choose(n - 1, k - 1) as real, Choose(n - 1, k) as real, p, Pow(p, k - 1), Pow(1.0 - p, n - 1 - k));
    } else if k == n {
      ChooseBeyond(n - 1, n);
      PowStep(p, n - 1);
      PowStep(1.0 - p, 0);
      ProductWon(Choose(n - 1, n - 1) as real, p, Pow(p, n - 1));
    }
  }

  lemma TermBeyond(n: nat, k: nat, p: real)
    requires k > n
    ensures Term(n, k, p) == 0.0
  {
  }

  lemma MixAdds(p: real, x: real, y: real, x': real, y': real)
    ensures Mix(p, x, y) + Mix(p, x', y') == Mix(p, x + x', y + y')
  {
  }

  lemma {:induction false} SumSplits(low: nat, n: nat, p: real)
    requires n > 0 && low > 0
    ensures TermsFrom(low, n, p) == Mix(p, TermsFrom(low - 1, n - 1, p), TermsFrom(low, n - 1, p))
    decreases n + 1 - low
  {
    MixSame(p, 0.0);
    TermBeyond(n - 1, n, p);
    hide Mix;
    hide Term;
    if low <= n {
      SumSplits(low + 1, n, p);
      TermSplits(n, low, p);
      MixAdds(p, Term(n - 1, low - 1, p), Term(n - 1, low, p), TermsFrom(low, n - 1, p), TermsFrom(low + 1, n - 1, p));
    }
  }

  lemma ZeroTerm(n: nat, p: real)
    ensures Term(0, 0, p) == 1.0
    ensures n > 0 ==> Term(n, 0, p) == Mix(p, 0.0, Term(n - 1, 0, p))
  {
  }

  /** The closed-form sum is the probability, for every win rate. */
  lemma {:induction false} SumIsAtLeast(low: nat, n: nat, p: real)
    ensures TermsFrom(low, n, p) == AtLeast(n, low, p)
    decreases n
  {
    ZeroTerm(n, p);
    hide Mix;
    hide Term;
    if n == 0 {
      assert low == 0 ==> TermsFrom(1, 0, p) == 0.0;
    } else if low == 0 {
      SumSplits(1, n, p);
      SumIsAtLeast(0, n - 1, p);
      SumIsAtLeast(1, n - 1, p);
      var s0, s1 := TermsFrom(0, n - 1, p), TermsFrom(1, n - 1, p);
      MixAdds(p, 0.0, Term(n - 1, 0, p), s0, s1);
      MixSame(p, s0);
    } else {
      SumSplits(low, n, p);
      SumIsAtLeast(low - 1, n - 1, p);
      SumIsAtLeast(low, n - 1, p);
    }
  }

  // ---- The probability -----------------------------------------------------------------------

  lemma TimesGrows(p: real, x: real, x': real)
    requires 0.0 <= p && x <= x'
    ensures Times(p, x) <= Times(p, x')
  {
    assert p * (x' - x) >= 0.0;
  }

  /** A mixture grows with its parts, and a mixture of equal parts is that part. */
  lemma MixGrows(p: real, x: real, y: real, x': real, y': real)
    requires 0.0 <= p <= 1.0 && x <= x' && y <= y'
    ensures Mix(p, x, y) <= Mix(p, x', y')
  {
    hide Times;
    TimesGrows(p, x, x');
    TimesGrows(1.0 - p, y, y');
  }

  lemma MixSame(p: real, x: real)
    ensures Mix(p, x, x) == x
  {
  }

  lemma MixWon(p: real, x: real)
    ensures Mix(p, x, 0.0) == Times(p, x)
  {
  }

  /** A mixture of a better and a worse outcome grows with the chance of the better one. */
  lemma MixTilts(p: real, q: real, x: real, y: real)
    requires p <= q && y <= x
    ensures Mix(p, x, y) <= Mix(q, x, y)
  {
    MixLine(p, x, y);
    MixLine(q, x, y);
    hide Mix;
    TimesGrowsLeft(p, q, x - y);
    hide Times;
  }

  lemma MixLine(p: real, x: real, y: real)
    ensures Mix(p, x, y) == y + Times(p, x - y)
  {
  }

  lemma TimesGrowsLeft(p: real, q: real, d: real)
    requires p <= q && 0.0 <= d
    ensures Times(p, d) <= Times(q, d)
  {
    assert (q - p) * d >= 0.0;
  }

  lemma {:induction false} AtLeastBounds(n: nat, wins: int, p: real)
    requires 0.0 <= p <= 1.0
    ensures 0.0 <= AtLeast(n, wins, p) <= 1.0
  {
    hide Mix;
    if wins > 0 && n > 0 {
      AtLeastBounds(n - 1, wins - 1, p);
      AtLeastBounds(n - 1, wins, p);
      MixSame(p, 0.0);
      MixSame(p, 1.0);
      MixGrows(p, 0.0, 0.0, AtLeast(n - 1, wins - 1, p), AtLeast(n - 1, wins, p));
      MixGrows(p, AtLeast(n - 1, wins - 1, p), AtLeast(n - 1, wins, p), 1.0, 1.0);
    }
  }

  /** More wins are less likely. */
  lemma {:induction false} AntitoneInWins(n: nat, wins: int, p: real)
    requires 0.0 <= p <= 1.0
    ensures AtLeast(n, wins + 1, p) <= AtLeast(n, wins, p)
  {
    hide Mix;
    if wins <= 0 {
      AtLeastBounds(n, wins + 1, p);
    } else if n > 0 {
      AntitoneInWins(n - 1, wins - 1, p);
      AntitoneInWins(n - 1, wins, p);
      MixGrows(p, AtLeast(n - 1, wins, p), AtLeast(n - 1, wins + 1, p),
               AtLeast(n - 1, wins - 1, p), AtLeast(n - 1, wins, p));
    }
  }

  /** More trials make a number of wins likelier. */
  lemma MonotoneInTrials(n: nat, wins: int, p: real)
    requires 0.0 <= p <= 1.0
    ensures AtLeast(n, wins, p) <= AtLeast(n + 1, wins, p)
  {
    hide Mix;
    if wins > 0 {
      var x, y := AtLeast(n, wins - 1, p), AtLeast(n, wins, p);
      AntitoneInWins(n, wins - 1, p);
      MixSame(p, y);
      MixGrows(p, y, y, x, y);
    }
  }

  /** A higher win rate makes a number of wins likelier. */
  lemma {:induction false} MonotoneInRate(n: nat, wins: int, p: real, q: real)
    requires 0.0 <= p <= q <= 1.0
    ensures AtLeast(n, wins, p) <= AtLeast(n, wins, q)
  {
    hide Mix;
    if wins > 0 && n > 0 {
      MonotoneInRate(n - 1, wins - 1, p, q);
      MonotoneInRate(n - 1, wins, p, q);
      AntitoneInWins(n - 1, wins - 1, q);
      var x, y := AtLeast(n - 1, wins - 1, q), AtLeast(n - 1, wins, q);
      MixGrows(p, AtLeast(n - 1, wins - 1, p), AtLeast(n - 1, wins, p), x, y);
      MixTilts(p, q, x, y);
    }
  }

  lemma {:induction false} BeyondReach(n: nat, wins: int, p: real)
    requires wins > n
    ensures AtLeast(n, wins, p) == 0.0
  {
    hide Mix;
    if n > 0 {
      BeyondReach(n - 1, wins - 1, p);
      BeyondReach(n - 1, wins, p);
      MixSame(p, 0.0);
    }
  }

  /** Winning every trial has chance p to the n. */
  lemma {:induction false} AllWins(n: nat, p: real)
    ensures AtLeast(n, n, p) == Pow(p, n)
  {
    hide Mix;
    hide Times;
    if n > 0 {
      AllWins(n - 1, p);
      BeyondReach(n - 1, n, p);
      MixWon(p, Pow(p, n - 1));
    }
  }
}
