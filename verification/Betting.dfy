/**
 Betting against the composite null "each breach probability is at most p0". A strategy turns
 the whole history of outcomes into the capital factor of each next outcome; any strategy whose
 factors are those of a nonnegative bet obeys Ville's bound. The survival monitor is one.
 */
module Betting {
  import opened Ville

  /** The capital factor applied to outcome x after history h. It sees the past only, so every
      bet is predictable; how it depends on the past is free. */
  type Bets = (seq<bool>, bool) -> real

  /** K_t: the product of the factors, each betting on what came strictly before; at p0 = 0, the
      limit bet, which one breach makes infinite. */
  function BetWealth(p0: real, bets: Bets, xs: seq<bool>): Capital {
    if p0 == 0.0 then
      if true in xs then Inf else Fin(1.0)
    else if xs == [] then
      Fin(1.0)
    else
      match BetWealth(p0, bets, xs[..|xs| - 1])
      case Inf => Inf
      case Fin(k) => Fin(k * bets(xs[..|xs| - 1], xs[|xs| - 1]))
  }

  ghost function BetProcess(p0: real, bets: Bets): Process {
    xs => BetWealth(p0, bets, xs)
  }

  /** The factors at h are those of a bet of size lam. */
  ghost predicate BetsAt(p0: real, bets: Bets, h: seq<bool>, lam: real) {
    && lam >= 0.0
    && bets(h, true) == 1.0 + lam * (1.0 - p0)
    && bets(h, false) == 1.0 + lam * (0.0 - p0)
  }

  /** A nonnegative bet that can never lose more than everything. */
  ghost predicate SoundBetAt(p0: real, bets: Bets, h: seq<bool>) {
    bets(h, true) >= 0.0 && bets(h, false) >= 0.0 && exists lam: real :: BetsAt(p0, bets, h, lam)
  }

  ghost predicate SoundBets(p0: real, bets: Bets) {
    p0 > 0.0 ==> forall h :: SoundBetAt(p0, bets, h)
  }

  /** The composite null: at every history the breach probability is at most p0. */
  ghost predicate WithinNull(p0: real, adv: Adversary) {
    forall h :: 0.0 <= adv(h) <= p0
  }

  lemma BetWealthStep(p0: real, bets: Bets, h: seq<bool>, x: bool, k: real, f: real)
    requires p0 != 0.0 && BetWealth(p0, bets, h) == Fin(k) && f == bets(h, x)
    ensures BetWealth(p0, bets, h + [x]) == Fin(k * f)
  {
    assert (h + [x])[..|h + [x]| - 1] == h;
  }

  /** Away from p0 = 0 capital stays finite. */
  lemma {:induction false} BetWealthFinite(p0: real, bets: Bets, xs: seq<bool>)
    requires p0 != 0.0
    ensures BetWealth(p0, bets, xs).Fin?
  {
    if xs != [] {
      BetWealthFinite(p0, bets, xs[..|xs| - 1]);
    }
  }

  lemma NonnegativeTimes(a: real, b: real)
    requires a >= 0.0 && b >= 0.0
    ensures a * b >= 0.0
  {
  }

  lemma {:induction false} BetWealthNonnegative(p0: real, bets: Bets, xs: seq<bool>)
    requires p0 > 0.0 && SoundBets(p0, bets)
    ensures BetWealth(p0, bets, xs).Fin? && BetWealth(p0, bets, xs).k >= 0.0
  {
    if xs != [] {
      var past, x := xs[..|xs| - 1], xs[|xs| - 1];
      BetWealthNonnegative(p0, bets, past);
      assert xs == past + [x];
      assert SoundBetAt(p0, bets, past);
      var k, f := BetWealth(p0, bets, past).k, bets(past, x);
      BetWealthStep(p0, bets, past, x, k, f);
      NonnegativeTimes(k, f);
    }
  }

  lemma BetExpectation(k: real, lam: real, q: real, p0: real, f1: real, f0: real, k1: real, k0: real)
    requires k >= 0.0 && lam >= 0.0 && 0.0 <= q <= p0
    requires f1 == 1.0 + lam * (1.0 - p0) && f0 == 1.0 + lam * (0.0 - p0)
    requires k1 == k * f1 && k0 == k * f0
    ensures q * k1 + (1.0 - q) * k0 <= k
  {
    assert q * f1 + (1.0 - q) * f0 == 1.0 + lam * (q - p0);
    MulLeq(q - p0, 0.0, lam);
    var mean := q * f1 + (1.0 - q) * f0;
    MulLeq(mean, 1.0, k);
    Distribute(k, q, 1.0 - q, f1, f0);
  }

  lemma FairFromCapitals(w: Process, adv: Adversary, h: seq<bool>, q: real, k1: real, k0: real, k: real)
    requires w(h) == Fin(k) && w(h + [true]) == Fin(k1) && w(h + [false]) == Fin(k0)
    requires k >= 0.0 && q == adv(h) && 0.0 <= q <= 1.0 && q * k1 + (1.0 - q) * k0 <= k
    ensures FairStep(w, adv, h)
  {
  }

  lemma FairFinite(
    p0: real, bets: Bets, adv: Adversary, h: seq<bool>, k: real, q: real, lam: real, f1: real, f0: real, k1: real, k0: real)
    requires 0.0 < p0 < 1.0 && k >= 0.0 && q == adv(h) && 0.0 <= q <= p0
    requires BetWealth(p0, bets, h) == Fin(k)
    requires BetWealth(p0, bets, h + [true]) == Fin(k1) && BetWealth(p0, bets, h + [false]) == Fin(k0)
    requires lam >= 0.0 && f1 == 1.0 + lam * (1.0 - p0) && f0 == 1.0 + lam * (0.0 - p0)
    requires k1 == k * f1 && k0 == k * f0
    ensures FairStep(BetProcess(p0, bets), adv, h)
  {
    BetExpectation(k, lam, q, p0, f1, f0, k1, k0);
    FairFromCapitals(BetProcess(p0, bets), adv, h, q, k1, k0, k);
  }

  /** Predictable, nonnegative bets make the capital process fair under the null. */
  lemma BetsAreFair(p0: real, bets: Bets, adv: Adversary, h: seq<bool>)
    requires 0.0 <= p0 < 1.0 && SoundBets(p0, bets) && WithinNull(p0, adv)
    ensures FairStep(BetProcess(p0, bets), adv, h)
  {
    if p0 == 0.0 {
      assert adv(h) == 0.0;
      assert (true in h + [false]) == (true in h);
    } else {
      BetWealthNonnegative(p0, bets, h);
      assert SoundBetAt(p0, bets, h);
      var lam: real :| BetsAt(p0, bets, h, lam);
      var k, f1, f0 := BetWealth(p0, bets, h).k, bets(h, true), bets(h, false);
      BetWealthStep(p0, bets, h, true, k, f1);
      BetWealthStep(p0, bets, h, false, k, f0);
      FairFinite(p0, bets, adv, h, k, adv(h), lam, f1, f0, k * f1, k * f0);
    }
  }

  /** Ville for every predictable strategy: whatever the history-dependent bets and the
      history-dependent adversary within the null, the streams on which capital ever reaches the
      level 1/alpha weigh at most alpha. */
  lemma PredictableVilleBound(
    p0: real, alpha: real, level: real, bets: Bets, adv: Adversary, n: nat, fires: seq<bool> -> bool)
    requires 0.0 <= p0 < 1.0 && alpha > 0.0 && level > 1.0 && alpha * level == 1.0
    requires SoundBets(p0, bets) && WithinNull(p0, adv)
    requires Marks(fires, BetProcess(p0, bets), level)
    ensures Mass(fires, adv, [], Streams(n)) <= alpha
  {
    var w := BetProcess(p0, bets);
    forall h ensures FairStep(w, adv, h) {
      BetsAreFair(p0, bets, adv, h);
    }
    assert w([]) == Fin(1.0);
    Inequality(w, alpha, level, adv, n, fires);
  }
}
