/**
 Ville's inequality for a capital process played against an adaptive adversary, on finite
 horizons and with probabilities as real weights of outcome streams. The process is any
 function from the outcomes so far to capital; the survival monitor is one instance.
 */
module Ville {
  datatype Capital = Fin(k: real) | Inf

  predicate Leq(a: Capital, b: Capital) {
    b.Inf? || (a.Fin? && a.k <= b.k)
  }

  predicate Reaches(level: real, c: Capital) {
    c.Inf? || c.k >= level
  }

  /** Capital after each history of breach outcomes. */
  type Process = seq<bool> -> Capital

  /** An adversary picks each breach probability from the whole history of outcomes. */
  type Adversary = seq<bool> -> real

  ghost predicate EverReaches(w: Process, level: real, h: seq<bool>) {
    exists i :: 0 <= i <= |h| && Reaches(level, w(h[..i]))
  }

  /** Nonnegative capital whose expectation, under the adversary's next probability, does
      not grow. An outcome that makes capital infinite must have probability zero. */
  ghost predicate FairStep(w: Process, adv: Adversary, h: seq<bool>) {
    w(h).Fin? ==>
      && w(h).k >= 0.0
      && 0.0 <= adv(h) <= 1.0
      && w(h + [false]).Fin?
      && if w(h + [true]).Inf?
         then adv(h) == 0.0 && w(h + [false]).k <= w(h).k
         else adv(h) * w(h + [true]).k + (1.0 - adv(h)) * w(h + [false]).k <= w(h).k
  }

  ghost predicate Supermartingale(w: Process, adv: Adversary) {
    forall h :: FairStep(w, adv, h)
  }

  lemma MulLeq(a: real, b: real, c: real)
    requires a <= b && c >= 0.0
    ensures a * c <= b * c && c * a <= c * b
  {
  }

  // ----- one step of expectation ----------------------------------------------------------

  lemma WeightedBound(q: real, r: real, f1: real, b1: real, f0: real, b0: real)
    requires q >= 0.0 && r >= 0.0 && f1 <= b1 && f0 <= b0
    ensures q * f1 + r * f0 <= q * b1 + r * b0
  {
    MulLeq(f1, b1, q);
    MulLeq(f0, b0, r);
  }

  lemma Distribute(a: real, q: real, r: real, x: real, y: real)
    ensures q * (a * x) + r * (a * y) == a * (q * x + r * y)
  {
    assert q * (a * x) == a * (q * x);
    assert r * (a * y) == a * (r * y);
    assert a * (q * x + r * y) == a * (q * x) + a * (r * y);
  }

  lemma ExpectedBound(a: real, q: real, r: real, m1: real, k1: real, m0: real, k0: real, k: real)
    requires a > 0.0 && q >= 0.0 && r >= 0.0 && m1 <= a * k1 && m0 <= a * k0
    requires q * k1 + r * k0 <= k
    ensures q * m1 + r * m0 <= a * k
  {
    WeightedBound(q, r, m1, a * k1, m0, a * k0);
    Distribute(a, q, r, k1, k0);
    MulLeq(q * k1 + r * k0, k, a);
  }

  /** The same bound when the breach outcome has probability zero. */
  lemma NullOutcomeBound(a: real, q: real, r: real, m1: real, m0: real, k0: real, k: real)
    requires a > 0.0 && q == 0.0 && r == 1.0 && m0 <= a * k0 && k0 <= k
    ensures q * m1 + r * m0 <= a * k
  {
    MulLeq(k0, k, a);
  }

  /** Reaching the level for the first time at h + [x] means capital there is at the level. */
  lemma ReachedNow(w: Process, level: real, h: seq<bool>, x: bool)
    requires !EverReaches(w, level, h) && EverReaches(w, level, h + [x])
    ensures Reaches(level, w(h + [x]))
  {
    var g := h + [x];
    assert forall i :: 0 <= i <= |h| ==> g[..i] == h[..i];
    assert g[..|g|] == g;
  }

  // ----- probability as the weight of a set of streams -----------------------------------

  function Prefixed(x: bool, ss: seq<seq<bool>>): (r: seq<seq<bool>>)
    ensures |r| == |ss| && forall i :: 0 <= i < |ss| ==> r[i] == [x] + ss[i]
  {
    seq(|ss|, i requires 0 <= i < |ss| => [x] + ss[i])
  }

  /** Every outcome stream of length n, each once. */
  function Streams(n: nat): seq<seq<bool>> {
    if n == 0 then [[]] else Prefixed(true, Streams(n - 1)) + Prefixed(false, Streams(n - 1))
  }

  lemma PrefixedHas(x: bool, ss: seq<seq<bool>>, s: seq<bool>)
    requires s in ss
    ensures [x] + s in Prefixed(x, ss)
  {
    var i :| 0 <= i < |ss| && ss[i] == s;
    assert Prefixed(x, ss)[i] == [x] + s;
  }

  lemma {:induction false} StreamsComplete(n: nat, xs: seq<bool>)
    requires |xs| == n
    ensures xs in Streams(n)
  {
    if n > 0 {
      var ss := Streams(n - 1);
      StreamsComplete(n - 1, xs[1..]);
      PrefixedHas(xs[0], ss, xs[1..]);
      assert xs == [xs[0]] + xs[1..];
    }
  }

  lemma {:induction false} StreamsDistinct(n: nat)
    ensures forall i :: 0 <= i < |Streams(n)| ==> |Streams(n)[i]| == n
    ensures forall i, j :: 0 <= i < j < |Streams(n)| ==> Streams(n)[i] != Streams(n)[j]
  {
    if n > 0 {
      StreamsDistinct(n - 1);
      var ss, all := Streams(n - 1), Streams(n);
      var m := |ss|;
      forall i | 0 <= i < |all| ensures all[i] == [i < m] + ss[if i < m then i else i - m] {
      }
      forall i, j | 0 <= i < j < |all| ensures all[i] != all[j] {
        assert all[i][0] == (i < m) && all[j][0] == (j < m);
        assert all[i][1..] == ss[if i < m then i else i - m];
        assert all[j][1..] == ss[if j < m then j else j - m];
      }
    }
  }

  /** Probability that the outcomes after h are exactly xs. */
  ghost function Weight(adv: Adversary, h: seq<bool>, xs: seq<bool>): real
    decreases |xs|
  {
    if xs == [] then 1.0
    else (if xs[0] then adv(h) else 1.0 - adv(h)) * Weight(adv, h + [xs[0]], xs[1..])
  }

  lemma NonnegativeProduct(a: real, b: real)
    requires a >= 0.0 && b >= 0.0
    ensures a * b >= 0.0
  {
  }

  /** Against a probability at every history no stream has negative weight. */
  lemma {:induction false} WeightNonnegative(adv: Adversary, h: seq<bool>, xs: seq<bool>)
    requires forall g :: 0.0 <= adv(g) <= 1.0
    ensures Weight(adv, h, xs) >= 0.0
    decreases |xs|
  {
    if xs != [] {
      WeightNonnegative(adv, h + [xs[0]], xs[1..]);
      var w, m := if xs[0] then adv(h) else 1.0 - adv(h), Weight(adv, h + [xs[0]], xs[1..]);
      NonnegativeProduct(w, m);
      WeightCons(adv, h, xs[0], xs[1..], w, m);
      assert xs == [xs[0]] + xs[1..];
    }
  }

  /** What one stream adds: its weight if the event holds on it. */
  ghost function Share(event: seq<bool> -> bool, adv: Adversary, h: seq<bool>, s: seq<bool>): real {
    if event(h + s) then Weight(adv, h, s) else 0.0
  }

  /** Total weight of those streams in ss on which the event holds. */
  ghost function Mass(event: seq<bool> -> bool, adv: Adversary, h: seq<bool>, ss: seq<seq<bool>>): real {
    if ss == [] then 0.0
    else Share(event, adv, h, ss[0]) + Mass(event, adv, h, ss[1..])
  }

  lemma {:induction false} MassConcat(e: seq<bool> -> bool, adv: Adversary, h: seq<bool>, a: seq<seq<bool>>, b: seq<seq<bool>>)
    ensures Mass(e, adv, h, a + b) == Mass(e, adv, h, a) + Mass(e, adv, h, b)
  {
    if a == [] {
      assert a + b == b;
    } else {
      assert (a + b)[1..] == a[1..] + b;
      MassConcat(e, adv, h, a[1..], b);
    }
  }

  lemma SumTimes(w: real, a: real, b: real, m: real)
    requires m == a + b
    ensures w * m == w * a + w * b
  {
  }

  lemma WeightCons(adv: Adversary, h: seq<bool>, x: bool, s: seq<bool>, w: real, m: real)
    requires w == if x then adv(h) else 1.0 - adv(h)
    requires m == Weight(adv, h + [x], s)
    ensures Weight(adv, h, [x] + s) == w * m
  {
    var all := [x] + s;
    assert all[0] == x && all[1..] == s;
  }

  lemma ShareCons(e: seq<bool> -> bool, adv: Adversary, h: seq<bool>, x: bool, s: seq<bool>, w: real, head: real)
    requires w == if x then adv(h) else 1.0 - adv(h)
    requires head == Share(e, adv, h + [x], s)
    ensures Share(e, adv, h, [x] + s) == w * head
  {
    assert h + ([x] + s) == h + [x] + s;
    WeightCons(adv, h, x, s, w, Weight(adv, h + [x], s));
  }

  lemma {:induction false} MassPrefixed(e: seq<bool> -> bool, adv: Adversary, h: seq<bool>, x: bool, ss: seq<seq<bool>>, w: real, m: real)
    requires w == if x then adv(h) else 1.0 - adv(h)
    requires m == Mass(e, adv, h + [x], ss)
    ensures Mass(e, adv, h, Prefixed(x, ss)) == w * m
  {
    if ss != [] {
      var first := [x] + ss[0];
      assert Prefixed(x, ss)[1..] == Prefixed(x, ss[1..]);
      var head := Share(e, adv, h + [x], ss[0]);
      var rest := Mass(e, adv, h + [x], ss[1..]);
      ShareCons(e, adv, h, x, ss[0], w, head);
      MassPrefixed(e, adv, h, x, ss[1..], w, rest);
      SumTimes(w, head, rest, m);
      assert Prefixed(x, ss)[0] == first;
    }
  }

  lemma MassStep(e: seq<bool> -> bool, adv: Adversary, h: seq<bool>, n: nat, q: real, r: real, m1: real, m0: real)
    requires q == adv(h) && r == 1.0 - q
    requires m1 == Mass(e, adv, h + [true], Streams(n)) && m0 == Mass(e, adv, h + [false], Streams(n))
    ensures Mass(e, adv, h, Streams(n + 1)) == q * m1 + r * m0
  {
    var ss := Streams(n);
    MassConcat(e, adv, h, Prefixed(true, ss), Prefixed(false, ss));
    MassPrefixed(e, adv, h, true, ss, q, m1);
    MassPrefixed(e, adv, h, false, ss, r, m0);
  }

  /** The event holds from h on. */
  ghost predicate Certain(e: seq<bool> -> bool, h: seq<bool>) { forall g :: h <= g ==> e(g) }

  lemma CertainNow(e: seq<bool> -> bool, adv: Adversary, h: seq<bool>)
    requires e(h)
    ensures Mass(e, adv, h, Streams(0)) == 1.0
  {
    assert h + [] == h && Streams(0)[1..] == [];
  }

  lemma ReachedStaysReached(w: Process, level: real, h: seq<bool>, g: seq<bool>)
    requires EverReaches(w, level, h) && h <= g
    ensures EverReaches(w, level, g)
  {
    var i :| 0 <= i <= |h| && Reaches(level, w(h[..i]));
    assert g[..i] == h[..i];
  }

  ghost predicate Marks(e: seq<bool> -> bool, w: Process, level: real) {
    forall g :: e(g) <==> EverReaches(w, level, g)
  }

  // ----- the inequality -----------------------------------------------------------------

  /** The fire probability within n further outcomes, characterised by its recursion on the
      remaining horizon. */
  type Horizon = (seq<bool>, nat) -> real

  ghost predicate Unrolls(f: Horizon, adv: Adversary, h: seq<bool>, n: nat) {
    f(h, n + 1) == adv(h) * f(h + [true], n) + (1.0 - adv(h)) * f(h + [false], n)
  }

  ghost predicate FireProbability(f: Horizon, w: Process, level: real, adv: Adversary) {
    && (forall h, n: nat :: Unrolls(f, adv, h, n))
    && (forall h, n: nat :: EverReaches(w, level, h) ==> f(h, n) == 1.0)
    && (forall h :: !EverReaches(w, level, h) ==> f(h, 0) == 0.0)
  }

  ghost function Amount(c: Capital): real { if c.Fin? then c.k else 0.0 }

  /** The facts one fair step gives, in terms of the three capitals involved. */
  lemma FairUse(w: Process, level: real, adv: Adversary, h: seq<bool>, q: real, r: real, k1: real, k0: real, k: real)
    requires Supermartingale(w, adv) && !EverReaches(w, level, h)
    requires q == adv(h) && r == 1.0 - q
    requires k == Amount(w(h)) && k1 == Amount(w(h + [true])) && k0 == Amount(w(h + [false]))
    ensures w(h) == Fin(k) && k >= 0.0 && 0.0 <= q <= 1.0 && w(h + [false]) == Fin(k0)
    ensures if w(h + [true]).Inf? then q == 0.0 && k0 <= k else q * k1 + r * k0 <= k
  {
    assert h[..|h|] == h;
    assert !Reaches(level, w(h[..|h|]));
    assert FairStep(w, adv, h);
  }

  /** Bounds on both continuations combine into the bound at h. */
  lemma CombineBounds(
    f: Horizon, w: Process, level: real, adv: Adversary, h: seq<bool>, n: nat, a: real, k1: real, k0: real, k: real)
    requires a > 0.0 && Supermartingale(w, adv) && !EverReaches(w, level, h) && Unrolls(f, adv, h, n)
    requires w(h) == Fin(k) && k1 == Amount(w(h + [true])) && k0 == Amount(w(h + [false]))
    requires w(h + [true]).Fin? ==> f(h + [true], n) <= a * k1
    requires f(h + [false], n) <= a * k0
    ensures f(h, n + 1) <= a * k
  {
    var q, r, m1, m0 := adv(h), 1.0 - adv(h), f(h + [true], n), f(h + [false], n);
    FairUse(w, level, adv, h, q, r, k1, k0, k);
    if w(h + [true]).Inf? {
      NullOutcomeBound(a, q, r, m1, m0, k0, k);
    } else {
      ExpectedBound(a, q, r, m1, k1, m0, k0, k);
    }
  }

  lemma {:induction false} StepBound(
    f: Horizon, w: Process, alpha: real, level: real, adv: Adversary, h: seq<bool>, x: bool, n: nat, k: real)
    requires alpha > 0.0 && alpha * level == 1.0 && Supermartingale(w, adv) && FireProbability(f, w, level, adv)
    requires !EverReaches(w, level, h) && w(h + [x]) == Fin(k)
    ensures f(h + [x], n) <= alpha * k
    decreases n, 1
  {
    if EverReaches(w, level, h + [x]) {
      ReachedNow(w, level, h, x);
      MulLeq(level, k, alpha);
    } else {
      FireBound(f, w, alpha, level, adv, h + [x], n, k);
    }
  }

  /** From any history that has not reached 1/alpha, the probability of ever reaching it is
      at most alpha times the capital held. */
  lemma {:induction false} FireBound(
    f: Horizon, w: Process, alpha: real, level: real, adv: Adversary, h: seq<bool>, n: nat, k: real)
    requires alpha > 0.0 && alpha * level == 1.0 && Supermartingale(w, adv) && FireProbability(f, w, level, adv)
    requires !EverReaches(w, level, h) && w(h) == Fin(k)
    ensures f(h, n) <= alpha * k
    decreases n, 0
  {
    var k1, k0 := Amount(w(h + [true])), Amount(w(h + [false]));
    FairUse(w, level, adv, h, adv(h), 1.0 - adv(h), k1, k0, k);
    if n == 0 {
      MulLeq(0.0, k, alpha);
    } else {
      StepBound(f, w, alpha, level, adv, h, false, n - 1, k0);
      if w(h + [true]).Fin? {
        StepBound(f, w, alpha, level, adv, h, true, n - 1, k1);
      }
      assert Unrolls(f, adv, h, n - 1);
      CombineBounds(f, w, level, adv, h, n - 1, alpha, k1, k0, k);
    }
  }

  lemma UnrollsFrom(f: Horizon, adv: Adversary, h: seq<bool>, n: nat, q: real, r: real, m1: real, m0: real)
    requires q == adv(h) && r == 1.0 - adv(h) && m1 == f(h + [true], n) && m0 == f(h + [false], n)
    requires f(h, n + 1) == q * m1 + r * m0
    ensures Unrolls(f, adv, h, n)
  {
  }

  lemma MassUnrolls(e: seq<bool> -> bool, adv: Adversary, f: Horizon, h: seq<bool>, n: nat)
    requires f(h, n + 1) == Mass(e, adv, h, Streams(n + 1))
    requires f(h + [true], n) == Mass(e, adv, h + [true], Streams(n))
    requires f(h + [false], n) == Mass(e, adv, h + [false], Streams(n))
    ensures Unrolls(f, adv, h, n)
  {
    var q := adv(h);
    var r := 1.0 - q;
    var m1, m0 := f(h + [true], n), f(h + [false], n);
    MassStep(e, adv, h, n, q, r, m1, m0);
    UnrollsFrom(f, adv, h, n, q, r, m1, m0);
  }

  lemma Halves(q: real, a: real, b: real, m: real)
    requires a == 1.0 && b == 1.0 && m == q * a + (1.0 - q) * b
    ensures m == 1.0
  {
  }

  /** A recursion that starts at one on every continuation of h is one throughout. */
  lemma {:induction false} CertainHorizon(f: Horizon, adv: Adversary, h: seq<bool>, n: nat)
    requires forall g, m: nat :: Unrolls(f, adv, g, m)
    requires forall g :: h <= g ==> f(g, 0) == 1.0
    ensures f(h, n) == 1.0
    decreases n
  {
    if n > 0 {
      CertainHorizon(f, adv, h + [true], n - 1);
      CertainHorizon(f, adv, h + [false], n - 1);
      assert Unrolls(f, adv, h, n - 1);
      Halves(adv(h), f(h + [true], n - 1), f(h + [false], n - 1), f(h, n));
    }
  }

  /** An event certain from h on has all the weight there is, which is one. */
  lemma CertainMass(e: seq<bool> -> bool, adv: Adversary, f: Horizon, h: seq<bool>, n: nat)
    requires Certain(e, h) && forall g, m: nat :: f(g, m) == Mass(e, adv, g, Streams(m))
    ensures Mass(e, adv, h, Streams(n)) == 1.0
  {
    forall g, m: nat ensures Unrolls(f, adv, g, m) {
      MassUnrolls(e, adv, f, g, m);
    }
    forall g | h <= g ensures f(g, 0) == 1.0 {
      CertainNow(e, adv, g);
    }
    CertainHorizon(f, adv, h, n);
  }

  lemma MassAtZero(e: seq<bool> -> bool, adv: Adversary, h: seq<bool>)
    requires !e(h)
    ensures Mass(e, adv, h, Streams(0)) == 0.0
  {
    assert h + [] == h && Streams(0)[1..] == [];
  }

  lemma MassOnceReached(e: seq<bool> -> bool, w: Process, level: real, adv: Adversary, f: Horizon, h: seq<bool>, n: nat)
    requires Marks(e, w, level) && EverReaches(w, level, h)
    requires forall g, m: nat :: f(g, m) == Mass(e, adv, g, Streams(m))
    ensures f(h, n) == 1.0
  {
    forall g | h <= g ensures e(g) {
      ReachedStaysReached(w, level, h, g);
    }
    CertainMass(e, adv, f, h, n);
  }

  /** The weight of the firing streams obeys that recursion. */
  lemma MassIsFireProbability(e: seq<bool> -> bool, w: Process, level: real, adv: Adversary, f: Horizon)
    requires Marks(e, w, level)
    requires forall h, n: nat :: f(h, n) == Mass(e, adv, h, Streams(n))
    ensures FireProbability(f, w, level, adv)
  {
    forall h, n: nat ensures Unrolls(f, adv, h, n) {
      MassUnrolls(e, adv, f, h, n);
    }
    forall h, n: nat | EverReaches(w, level, h) ensures f(h, n) == 1.0 {
      MassOnceReached(e, w, level, adv, f, h, n);
    }
    forall h | !EverReaches(w, level, h) ensures f(h, 0) == 0.0 {
      MassAtZero(e, adv, h);
    }
  }

  /** The bound at the empty history, where capital is 1. */
  lemma StartBound(f: Horizon, w: Process, alpha: real, level: real, adv: Adversary, n: nat)
    requires alpha > 0.0 && level > 1.0 && alpha * level == 1.0
    requires w([]) == Fin(1.0) && Supermartingale(w, adv) && FireProbability(f, w, level, adv)
    ensures f([], n) <= alpha
  {
    var start: seq<bool> := [];
    assert !EverReaches(w, level, start) by {
      assert start[..0] == [];
    }
    FireBound(f, w, alpha, level, adv, start, n, 1.0);
  }

  /** Ville's inequality: among all streams of any length, those on which a fair process
      starting from capital 1 ever reaches 1/alpha weigh at most alpha. */
  lemma Inequality(w: Process, alpha: real, level: real, adv: Adversary, n: nat, e: seq<bool> -> bool)
    requires alpha > 0.0 && level > 1.0 && alpha * level == 1.0
    requires w([]) == Fin(1.0) && Supermartingale(w, adv)
    requires Marks(e, w, level)
    ensures Mass(e, adv, [], Streams(n)) <= alpha
  {
    var f: Horizon := (h: seq<bool>, m: nat) => Mass(e, adv, h, Streams(m));
    MassIsFireProbability(e, w, level, adv, f);
    StartBound(f, w, alpha, level, adv, n);
    assert f([], n) == Mass(e, adv, [], Streams(n));
  }
}
