/**
 What the shipped bet is, and that it bites: its factors are likelihood ratios of the running
 breach rate against the null, truncated at one half, and breaches in a row fire the monitor
 from every history.
 */
module Power {
  import opened Wrappers
  import opened Ville
  import opened Betting
  import opened Survival

  // ----- the shipped factors --------------------------------------------------------------

  lemma RawBet(p0: real, a: real, n: real, raw: real)
    requires 0.0 < p0 < 1.0 && n > 0.0 && raw == (a / n - p0) / (p0 * (1.0 - p0))
    ensures raw * (p0 * (1.0 - p0)) * n == a - p0 * n
  {
    var v := p0 * (1.0 - p0);
    assert v > 0.0;
    assert raw * v == a / n - p0;
    assert (a / n) * n == a;
    Spread(a / n, p0, n);
  }

  lemma Spread(x: real, y: real, n: real)
    ensures (x - y) * n == x * n - y * n
  {
  }

  lemma SignOf(x: real, v: real, y: real)
    requires v > 0.0 && x * v == y
    ensures x >= 0.0 <==> y >= 0.0
  {
    if x < 0.0 {
      MulLess(0.0 - x, v);
      assert (0.0 - x) * v == 0.0 - x * v;
    } else {
      MulLeq(0.0, x, v);
    }
  }

  /** Where the clamp sits: at zero while the rate is below the null, at its cap once the rate is
      past halfway from the null to one. */
  lemma ClampRegimes(p0: real, a: real, n: real, raw: real, cap: real)
    requires 0.0 < p0 < 1.0 && n > 0.0 && raw * (p0 * (1.0 - p0)) * n == a - p0 * n && cap * p0 == 0.5
    ensures raw >= 0.0 <==> a >= p0 * n
    ensures raw >= cap <==> 2.0 * a >= (1.0 + p0) * n
  {
    var v := p0 * (1.0 - p0);
    var vn := v * n;
    assert v > 0.0 && vn > 0.0;
    assert raw * v * n == raw * vn;
    SignOf(raw, vn, a - p0 * n);
    CapTimes(p0, n, cap, vn);
    Spread(raw, cap, vn);
    SignOf(raw - cap, vn, a - p0 * n - 0.5 * (1.0 - p0) * n);
  }

  lemma CapTimes(p0: real, n: real, cap: real, vn: real)
    requires cap * p0 == 0.5 && vn == p0 * (1.0 - p0) * n
    ensures cap * vn == 0.5 * (1.0 - p0) * n
  {
    var w := (1.0 - p0) * n;
    assert vn == p0 * w;
    assert cap * vn == cap * p0 * w;
  }

  lemma RatioFactors(p0: real, a: real, n: real, lam: real)
    requires lam * (p0 * (1.0 - p0)) * n == a - p0 * n
    ensures (1.0 + lam * (1.0 - p0)) * p0 * n == a
    ensures (1.0 + lam * (0.0 - p0)) * (1.0 - p0) * n == n - a
  {
    var x := lam * (p0 * (1.0 - p0)) * n;
    assert lam * (1.0 - p0) * p0 * n == x;
    assert lam * (0.0 - p0) * (1.0 - p0) * n == -x;
  }

  /** hit and miss are the factors of a breach and of a clean observation at the rate a / m. */
  ghost predicate LikelihoodFactors(p0: real, a: real, m: real, hit: real, miss: real) {
    && (a <= p0 * m ==> hit == 1.0 && miss == 1.0)
    && (p0 * m <= a && 2.0 * a <= (1.0 + p0) * m ==> hit * p0 * m == a && miss * (1.0 - p0) * m == m - a)
    && ((1.0 + p0) * m <= 2.0 * a ==> hit * p0 * 2.0 == 1.0 + p0 && miss == 0.5)
  }

  /** The factors of the shipped strategy, exactly, after n observations of which b breached: with
      rate (b + 1/2) / (n + 1), nothing is bet while the rate is at most the null; the factors are
      the likelihood ratios rate / p0 and (1 - rate) / (1 - p0) up to halfway from the null to
      one; beyond it a clean observation halves the capital. */
  lemma ShippedFactors(alpha: real, p0: real, n: nat, b: real)
    requires 0.0 < p0 < 1.0
    ensures var f := Shipped(alpha, p0).factor;
            LikelihoodFactors(p0, b + 0.5, n as real + 1.0, f(n, b, true), f(n, b, false))
  {
    var a, m := b + 0.5, n as real + 1.0;
    var raw, cap := (a / m - p0) / (p0 * (1.0 - p0)), 0.5 / p0;
    assert cap * p0 == 0.5;
    RawBet(p0, a, m, raw);
    ClampRegimes(p0, a, m, raw, cap);
    FactorsOf(alpha, p0, n, b, a, m, raw, cap);
  }

  lemma FactorsOf(alpha: real, p0: real, n: nat, b: real, a: real, m: real, raw: real, cap: real)
    requires 0.0 < p0 < 1.0 && a == b + 0.5 && m == n as real + 1.0
    requires raw == (a / m - p0) / (p0 * (1.0 - p0)) && cap == 0.5 / p0 && cap * p0 == 0.5
    requires raw * (p0 * (1.0 - p0)) * m == a - p0 * m
    requires (raw >= 0.0 <==> a >= p0 * m) && (raw >= cap <==> 2.0 * a >= (1.0 + p0) * m)
    ensures var f := Shipped(alpha, p0).factor; LikelihoodFactors(p0, a, m, f(n, b, true), f(n, b, false))
  {
    var lam := PlugInBet(p0, n, b);
    assert lam == Clamp(0.0, cap, raw);
    ScalarFactors(p0, a, m, raw, cap, lam);
  }

  lemma ScalarFactors(p0: real, a: real, m: real, raw: real, cap: real, lam: real)
    requires 0.0 < p0 < 1.0 && m > 0.0 && lam == Clamp(0.0, cap, raw) && cap * p0 == 0.5
    requires raw * (p0 * (1.0 - p0)) * m == a - p0 * m
    requires (raw >= 0.0 <==> a >= p0 * m) && (raw >= cap <==> 2.0 * a >= (1.0 + p0) * m)
    ensures LikelihoodFactors(p0, a, m, 1.0 + lam * (1.0 - p0), 1.0 + lam * (0.0 - p0))
  {
    ZeroOrPositive(p0, cap);
    if a <= p0 * m {
      NoBetBelow(p0, a, m, raw);
    }
    if p0 * m <= a && 2.0 * a <= (1.0 + p0) * m {
      MiddleBet(p0, a, m, raw, cap, lam);
      RatioFactors(p0, a, m, lam);
    }
    if (1.0 + p0) * m <= 2.0 * a {
      assert lam == cap;
      CapFactors(p0, cap);
    }
  }

  lemma ZeroOrPositive(p0: real, cap: real)
    requires p0 > 0.0 && cap * p0 == 0.5
    ensures cap > 0.0
  {
    if cap <= 0.0 {
      MulLeq(cap, 0.0, p0);
    }
  }

  lemma NoBetBelow(p0: real, a: real, m: real, raw: real)
    requires 0.0 < p0 < 1.0 && m > 0.0 && a <= p0 * m && raw * (p0 * (1.0 - p0)) * m == a - p0 * m
    ensures raw <= 0.0
  {
    var vm := p0 * (1.0 - p0) * m;
    assert vm > 0.0;
    assert raw * vm == raw * (p0 * (1.0 - p0)) * m;
    SignOf(0.0 - raw, vm, p0 * m - a);
  }

  lemma MiddleBet(p0: real, a: real, m: real, raw: real, cap: real, lam: real)
    requires 0.0 < p0 < 1.0 && m > 0.0 && lam == Clamp(0.0, cap, raw) && cap * p0 == 0.5 && cap > 0.0
    requires raw * (p0 * (1.0 - p0)) * m == a - p0 * m
    requires p0 * m <= a && 2.0 * a <= (1.0 + p0) * m
    requires (raw >= 0.0 <==> a >= p0 * m) && (raw >= cap <==> 2.0 * a >= (1.0 + p0) * m)
    ensures lam * (p0 * (1.0 - p0)) * m == a - p0 * m
  {
    if raw >= cap {
      var vm := p0 * (1.0 - p0) * m;
      CapTimes(p0, m, cap, vm);
      assert cap * (p0 * (1.0 - p0)) * m == cap * vm;
    }
  }

  lemma CapFactors(p0: real, cap: real)
    requires cap * p0 == 0.5
    ensures (1.0 + cap * (1.0 - p0)) * p0 * 2.0 == 1.0 + p0
    ensures 1.0 + cap * (0.0 - p0) == 0.5
  {
    assert cap * (1.0 - p0) * p0 == 0.5 * (1.0 - p0);
  }

  // ----- power ----------------------------------------------------------------------------

  function Breaks(m: nat): seq<bool> { seq(m, _ => true) }

  lemma {:induction false} BreachesAfter(h: seq<bool>, m: nat)
    ensures Breaches(h + Breaks(m)) == Breaches(h) + m
  {
    if m == 0 {
      assert h + Breaks(m) == h;
    } else {
      assert (h + Breaks(m))[..|h + Breaks(m)| - 1] == h + Breaks(m - 1);
      BreachesAfter(h, m - 1);
    }
  }

  /** The rate is past halfway from the null to one. */
  predicate Hot(p0: real, n: real, b: real) { (1.0 + p0) * (n + 1.0) <= 2.0 * (b + 0.5) }

  lemma StaysHot(p0: real, n: real, b: real, m: real)
    requires p0 < 1.0 && m >= 0.0 && Hot(p0, n, b)
    ensures Hot(p0, n + m, b + m)
  {
    MulLeq(1.0 + p0, 2.0, m);
    assert (1.0 + p0) * (n + m + 1.0) == (1.0 + p0) * (n + 1.0) + (1.0 + p0) * m;
  }

  lemma Archimedes(x: real, d: real) returns (m: nat)
    requires d > 0.0
    ensures m as real * d >= x
  {
    if x <= 0.0 {
      m := 0;
    } else {
      var y := x / d;
      assert y * d == x;
      if y < 0.0 {
        MulLeq(y, 0.0, d);
      }
      m := y.Floor + 1;
      MulLeq(y, m as real, d);
    }
  }

  /** Enough breaches in a row make the rate hot, whatever came before. */
  lemma BecomesHot(p0: real, n: real, b: real) returns (m: nat)
    requires 0.0 < p0 < 1.0 && 0.0 <= b <= n
    ensures Hot(p0, n + m as real, b + m as real)
  {
    m := Archimedes(2.0 * (n - b) + 1.0, 1.0 - p0);
    var x := m as real;
    var q := 1.0 - p0;
    MulLeq(0.0, n + 1.0, q);
    assert (n + x + 1.0) * q == (n + 1.0) * q + x * q;
    assert (1.0 + p0) * (n + x + 1.0) == 2.0 * (n + x + 1.0) - (n + x + 1.0) * q;
  }

  /** What each breach then multiplies capital by, less one. */
  function Gain(p0: real): real
    requires p0 > 0.0
  {
    (1.0 - p0) / (2.0 * p0)
  }

  lemma HotFactor(alpha: real, p0: real, n: nat, b: real, f: real)
    requires 0.0 < p0 < 1.0 && Hot(p0, n as real, b) && f == Shipped(alpha, p0).factor(n, b, true)
    ensures f == 1.0 + Gain(p0) && Gain(p0) > 0.0
  {
    ShippedFactors(alpha, p0, n, b);
    GainIs(p0, f, Gain(p0));
  }

  lemma GainIs(p0: real, f: real, g: real)
    requires 0.0 < p0 < 1.0 && f * p0 * 2.0 == 1.0 + p0 && g == (1.0 - p0) / (2.0 * p0)
    ensures f == 1.0 + g && g > 0.0
  {
    var t := 2.0 * p0;
    assert g * t == 1.0 - p0;
    if g <= 0.0 {
      MulLeq(g, 0.0, t);
    }
    assert (f - 1.0 - g) * t == 0.0;
    if f - 1.0 - g > 0.0 {
      MulLess(f - 1.0 - g, t);
    } else if f - 1.0 - g < 0.0 {
      MulLess(0.0 - (f - 1.0 - g), t);
    }
  }

  lemma MulLess(a: real, b: real)
    requires a > 0.0 && b > 0.0
    ensures a * b > 0.0
  {
  }

  lemma Compound(k: real, c: real, d: real, m: real)
    requires k > 0.0 && d > 0.0 && m >= 0.0 && c >= k + k * (m * d)
    ensures c * (1.0 + d) >= k + k * ((m + 1.0) * d)
  {
    var e := k * (m * d);
    assert m * d >= 0.0 by { MulLeq(0.0, m, d); }
    assert e >= 0.0 by { MulLeq(0.0, m * d, k); }
    MulLeq(k + e, c, 1.0 + d);
    assert (k + e) * (1.0 + d) == k + e + k * d + e * d;
    assert e * d >= 0.0 by { MulLeq(0.0, e, d); }
    assert (m + 1.0) * d == m * d + d;
    assert k * (m * d + d) == k * (m * d) + k * d;
  }

  /** One more breach multiplies the process by 1 + d. */
  ghost predicate Multiplies(w: Ville.Process, g: seq<bool>, d: real) {
    w(g).Fin? ==> w(g + [true]) == Fin(w(g).k * (1.0 + d))
  }

  /** A process that each breach multiplies by 1 + d grows at least linearly over breaches. */
  lemma {:induction false} Growth(w: Ville.Process, h: seq<bool>, k: real, m: nat, d: real)
    requires w(h) == Fin(k) && k > 0.0 && d > 0.0
    requires forall j: nat :: j < m ==> Multiplies(w, h + Breaks(j), d)
    ensures w(h + Breaks(m)).Fin? && w(h + Breaks(m)).k >= k + k * (m as real * d)
    decreases m
  {
    if m == 0 {
      assert h + Breaks(m) == h;
    } else {
      var before := h + Breaks(m - 1);
      Growth(w, h, k, m - 1, d);
      assert Multiplies(w, before, d);
      assert h + Breaks(m) == before + [true];
      Compound(k, w(before).k, d, (m - 1) as real);
    }
  }

  lemma HotStep(alpha: real, p0: real, h: seq<bool>, d: real)
    requires Shipped(alpha, p0).Valid() && p0 > 0.0 && Hot(p0, |h| as real, Breaches(h) as real) && d == Gain(p0)
    ensures Multiplies(Survival.Process(Shipped(alpha, p0)), h, d)
  {
    var p := Shipped(alpha, p0);
    var f := p.factor(|h|, Breaches(h) as real, true);
    HotFactor(alpha, p0, |h|, Breaches(h) as real, f);
    BetWealthFinite(p0, Counted(p.factor), h);
    FactorMultiplies(p, h, Wealth(p, h).k, d, f);
  }

  lemma FactorMultiplies(p: Params, h: seq<bool>, k: real, d: real, f: real)
    requires p.Valid() && p.p0 > 0.0 && Wealth(p, h) == Fin(k)
    requires f == p.factor(|h|, Breaches(h) as real, true) && f == 1.0 + d
    ensures Multiplies(Survival.Process(p), h, d)
  {
    WealthStep(p, h, true, k, f);
    MultipliesFrom(Survival.Process(p), h, k, d, f);
  }

  lemma MultipliesFrom(w: Ville.Process, h: seq<bool>, k: real, d: real, f: real)
    requires w(h) == Fin(k) && f == 1.0 + d && w(h + [true]) == Fin(k * f)
    ensures Multiplies(w, h, d)
  {
  }

  lemma ReachFires(p: Params, xs: seq<bool>)
    requires p.Valid() && Reaches(p.Level(), Wealth(p, xs))
    ensures Run(p, xs).Fired()
  {
    assert xs[..|xs|] == xs;
    FiredIsEverReaches(p, xs);
  }

  lemma HotStays(alpha: real, p0: real, h: seq<bool>, j: nat, d: real)
    requires Shipped(alpha, p0).Valid() && p0 > 0.0 && Hot(p0, |h| as real, Breaches(h) as real) && d == Gain(p0)
    ensures Multiplies(Survival.Process(Shipped(alpha, p0)), h + Breaks(j), d)
  {
    HotAfter(p0, h, j);
    HotStep(alpha, p0, h + Breaks(j), d);
  }

  lemma HotAfter(p0: real, h: seq<bool>, j: nat)
    requires p0 < 1.0 && Hot(p0, |h| as real, Breaches(h) as real)
    ensures Hot(p0, |h + Breaks(j)| as real, Breaches(h + Breaks(j)) as real)
  {
    BreachesAfter(h, j);
    StaysHot(p0, |h| as real, Breaches(h) as real, j as real);
  }

  lemma GainPositive(p0: real)
    requires 0.0 < p0 < 1.0
    ensures Gain(p0) > 0.0
  {
    var g, t := Gain(p0), 2.0 * p0;
    assert g * t == 1.0 - p0;
    if g <= 0.0 {
      MulLeq(g, 0.0, t);
    }
  }

  /** Capital grows past any level, so the level is reached. */
  lemma GrowthReaches(w: Ville.Process, h: seq<bool>, k: real, d: real, level: real) returns (m: nat)
    requires w(h) == Fin(k) && k > 0.0 && d > 0.0 && forall j: nat :: Multiplies(w, h + Breaks(j), d)
    ensures Reaches(level, w(h + Breaks(m)))
  {
    MulLess(k, d);
    m := Archimedes(level, k * d);
    assert k * (m as real * d) == m as real * (k * d);
    Growth(w, h, k, m, d);
  }

  lemma HotFires(alpha: real, p0: real, h: seq<bool>, k: real) returns (m: nat)
    requires Shipped(alpha, p0).Valid() && p0 > 0.0 && Wealth(Shipped(alpha, p0), h) == Fin(k) && k > 0.0
    requires Hot(p0, |h| as real, Breaches(h) as real)
    ensures Run(Shipped(alpha, p0), h + Breaks(m)).Fired()
  {
    var p := Shipped(alpha, p0);
    forall j: nat ensures Multiplies(Survival.Process(p), h + Breaks(j), Gain(p0)) {
      HotStays(alpha, p0, h, j, Gain(p0));
    }
    GainPositive(p0);
    m := GrowthReaches(Survival.Process(p), h, k, Gain(p0), p.Level());
    ReachFires(p, h + Breaks(m));
  }

  lemma {:induction false} BreachesBounded(h: seq<bool>)
    ensures Breaches(h) <= |h|
  {
    if h != [] {
      BreachesBounded(h[..|h| - 1]);
    }
  }

  lemma BreaksConcat(a: nat, b: nat)
    ensures Breaks(a) + Breaks(b) == Breaks(a + b)
  {
  }

  /** Power: for every level and null, and after every history however clean, some number of
      further breaches in a row fires the shipped monitor. */
  lemma BreachesFire(alpha: real, p0: real, h: seq<bool>) returns (m: nat)
    requires Shipped(alpha, p0).Valid()
    ensures Run(Shipped(alpha, p0), h + Breaks(m)).Fired()
  {
    var p := Shipped(alpha, p0);
    if p0 == 0.0 {
      m := 1;
      assert (h + Breaks(1))[|h|];
      ReachFires(p, h + Breaks(1));
    } else {
      BreachesBounded(h);
      var m1 := BecomesHot(p0, |h| as real, Breaches(h) as real);
      var hot := h + Breaks(m1);
      BreachesAfter(h, m1);
      ShippedIsSound(alpha, p0);
      WealthPositive(p, hot);
      var m2 := HotFires(alpha, p0, hot, Wealth(p, hot).k);
      m := m1 + m2;
      BreaksConcat(m1, m2);
      assert h + Breaks(m1) + Breaks(m2) == h + Breaks(m);
    }
  }
}
