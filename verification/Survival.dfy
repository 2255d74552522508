/**
 The anytime-valid survival monitor of the adversary-exposure certificate.

 Capital is modelled as a real product rather than as a sum of logarithms, so the action
 level log(1/alpha) becomes 1/alpha and the p-value exp(-max) becomes 1/max. Infinite
 capital, which only the deterministic floor p0 = 0 reaches, is its own constructor.
 */
module Survival {
  import opened Wrappers
  import opened Ville
  import opened Betting

  const BET_TRUNCATION: real := 0.5

  /** The capital factor applied to outcome x after n observations, b of them breaches: what a
      monitor that keeps only those two numbers can bet on. */
  type Strategy = (nat, real, bool) -> real

  datatype Params = Params(alpha: real, p0: real, factor: Strategy) {
    predicate Valid() { 0.0 < alpha < 1.0 && 0.0 <= p0 < 1.0 }

    /** The one-sided action level. */
    function Level(): real
      requires Valid()
    {
      1.0 / alpha
    }
  }

  // ----- the mathematical process, over whole streams ---------------------------------

  function Breaches(xs: seq<bool>): nat {
    if xs == [] then 0 else Breaches(xs[..|xs| - 1]) + (if xs[|xs| - 1] then 1 else 0)
  }

  function Indicator(x: bool): real { if x then 1.0 else 0.0 }

  function Clamp(lo: real, hi: real, x: real): real {
    var m := if x < hi then x else hi;
    if lo < m then m else lo
  }

  /** The plug-in bet placed after n observations, b of them breaches. */
  function PlugInBet(p0: real, n: nat, b: real): real
    requires 0.0 < p0 < 1.0
  {
    var pHat := (0.5 + b) / (n as real + 1.0);
    Clamp(0.0, BET_TRUNCATION / p0, (pHat - p0) / (p0 * (1.0 - p0)))
  }

  /** The factors of the plug-in strategy; at p0 = 0 no factor is ever multiplied in. */
  function PlugIn(p0: real): Strategy {
    (n: nat, b: real, x: bool) =>
      if 0.0 < p0 < 1.0 then 1.0 + PlugInBet(p0, n, b) * (Indicator(x) - p0) else 1.0
  }

  /** The monitor the program builds: plug-in bets at the given level and null. */
  function Shipped(alpha: real, p0: real): Params { Params(alpha, p0, PlugIn(p0)) }

  /** A strategy on the two counters, as a strategy on histories. */
  function Counted(factor: Strategy): Bets {
    (h: seq<bool>, x: bool) => factor(|h|, Breaches(h) as real, x)
  }

  /** K_t under these parameters. */
  function Wealth(p: Params, xs: seq<bool>): Capital
    requires p.Valid()
  {
    BetWealth(p.p0, Counted(p.factor), xs)
  }

  ghost function Process(p: Params): Ville.Process
    requires p.Valid()
  {
    BetProcess(p.p0, Counted(p.factor))
  }

  // ----- the streaming monitor ----------------------------------------------------------

  datatype Monitor = Monitor(
    t: nat, sum: real, breaches: nat, capital: Capital, peak: Capital, firedAt: Option<nat>)
  {
    predicate Fired() { firedAt.Some? }
  }

  const FRESH := Monitor(0, 0.0, 0, Fin(1.0), Fin(1.0), None)

  function Scale(p: Params, m: Monitor, x: bool): Capital
    requires p.Valid()
  {
    if m.capital.Inf? then Inf
    else if p.p0 == 0.0 then (if x then Inf else m.capital)
    else Fin(m.capital.k * p.factor(m.t, m.sum, x))
  }

  function Update(p: Params, m: Monitor, x: bool): Monitor
    requires p.Valid()
  {
    var capital := Scale(p, m, x);
    var peak := if Leq(capital, m.peak) then m.peak else capital;
    Monitor(
      m.t + 1, m.sum + Indicator(x), m.breaches + (if x then 1 else 0), capital, peak,
      if m.firedAt.None? && Reaches(p.Level(), peak) then Some(m.t + 1) else m.firedAt)
  }

  function Run(p: Params, xs: seq<bool>): Monitor
    requires p.Valid()
  {
    if xs == [] then FRESH else Update(p, Run(p, xs[..|xs| - 1]), xs[|xs| - 1])
  }

  /** The anytime-valid p-value min(1, 1/sup K). */
  function PAnytime(peak: Capital): real
    requires peak.Fin? ==> peak.k > 0.0
  {
    if peak.Inf? then 0.0
    else if 1.0 / peak.k < 1.0 then 1.0 / peak.k
    else 1.0
  }

  /** The monitor as the program holds it: fields updated in place, one call per query. */
  class SurvivalMonitor {
    const alpha: real
    const p0: real
    const factor: Strategy
    var t: nat
    var sum: real
    var breaches: nat
    var capital: Capital
    var peak: Capital
    var firedAt: Option<nat>

    function P(): Params { Params(alpha, p0, factor) }

    function View(): Monitor
      reads this
    {
      Monitor(t, sum, breaches, capital, peak, firedAt)
    }

    constructor (alpha: real, p0: real)
      requires 0.0 < alpha < 1.0 && 0.0 <= p0 < 1.0
      ensures P() == Shipped(alpha, p0) && View() == FRESH
    {
      this.alpha, this.p0, factor := alpha, p0, PlugIn(p0);
      t, sum, breaches, capital, peak, firedAt := 0, 0.0, 0, Fin(1.0), Fin(1.0), None;
    }

    /** Construction with its range checks: an invalid level or null yields no monitor. */
    static method Create(alpha: real, p0: real) returns (m: SurvivalMonitor?)
      ensures m == null <==> !(0.0 < alpha < 1.0 && 0.0 <= p0 < 1.0)
      ensures m != null ==> fresh(m) && m.P() == Shipped(alpha, p0) && m.View() == FRESH
    {
      if 0.0 < alpha < 1.0 && 0.0 <= p0 < 1.0 {
        m := new SurvivalMonitor(alpha, p0);
      } else {
        m := null;
      }
    }

    /** Fold in one observation; anything but 0 or 1 is refused and changes nothing. */
    method Observe(x: real) returns (ok: bool)
      requires P().Valid()
      modifies this
      ensures ok <==> x == 0.0 || x == 1.0
      ensures View() == if ok then Update(P(), old(View()), x == 1.0) else old(View())
    {
      ok := x == 0.0 || x == 1.0;
      if !ok {
        return;
      }
      assert x == Indicator(x == 1.0);
      ghost var scaled := Scale(P(), View(), x == 1.0);
      if capital.Fin? {
        if p0 == 0.0 {
          if x == 1.0 { capital := Inf; }
        } else {
          capital := Fin(capital.k * factor(t, sum, x == 1.0));
        }
      }
      assert capital == scaled;
      t := t + 1;
      sum := sum + x;
      if x == 1.0 {
        breaches := breaches + 1;
      }
      if !Leq(capital, peak) {
        peak := capital;
      }
      if firedAt == None && Reaches(P().Level(), peak) {
        firedAt := Some(t);
      }
    }

    /** Feed a whole recorded stream, as the certified campaign does. */
    method ObserveAll(xs: seq<bool>)
      requires P().Valid() && View() == FRESH
      modifies this
      ensures View() == Run(P(), xs)
    {
      for i := 0 to |xs|
        invariant View() == Run(P(), xs[..i])
      {
        assert xs[..i + 1][..i] == xs[..i];
        var ok := Observe(Indicator(xs[i]));
      }
      assert xs[..|xs|] == xs;
    }
  }

  // ----- running maximum and first crossing of an arbitrary process ---------------------

  function Peak(w: Ville.Process, xs: seq<bool>): Capital {
    if xs == [] then w([])
    else
      var before := Peak(w, xs[..|xs| - 1]);
      if Leq(w(xs), before) then before else w(xs)
  }

  function FirstAt(w: Ville.Process, level: real, xs: seq<bool>): Option<nat> {
    if xs == [] then None
    else
      match FirstAt(w, level, xs[..|xs| - 1])
      case Some(k) => Some(k)
      case None => if Reaches(level, Peak(w, xs)) then Some(|xs|) else None
  }

  /** c bounds the process on every prefix of xs and is attained on one of them. */
  ghost predicate IsSupremum(w: Ville.Process, xs: seq<bool>, c: Capital) {
    && (forall i :: 0 <= i <= |xs| ==> Leq(w(xs[..i]), c))
    && (exists i :: 0 <= i <= |xs| && w(xs[..i]) == c)
  }

  /** k is the first prefix length at which the process reaches the level. */
  ghost predicate IsFirst(w: Ville.Process, level: real, xs: seq<bool>, k: nat) {
    && 1 <= k <= |xs|
    && Reaches(level, w(xs[..k]))
    && forall j :: 0 <= j < k ==> !Reaches(level, w(xs[..j]))
  }

  lemma {:induction false} PeakIsSupremum(w: Ville.Process, xs: seq<bool>)
    ensures IsSupremum(w, xs, Peak(w, xs))
  {
    if xs == [] {
      assert xs[..0] == [];
    } else {
      var past := xs[..|xs| - 1];
      PeakIsSupremum(w, past);
      assert forall i :: 0 <= i <= |past| ==> xs[..i] == past[..i];
      assert xs[..|xs|] == xs;
      var j :| 0 <= j <= |past| && w(past[..j]) == Peak(w, past);
      assert w(xs[..(if Leq(w(xs), Peak(w, past)) then j else |xs|)]) == Peak(w, xs);
    }
  }

  lemma {:induction false} FirstAtIsFirst(w: Ville.Process, level: real, xs: seq<bool>)
    requires !Reaches(level, w([]))
    ensures match FirstAt(w, level, xs)
            case Some(k) => IsFirst(w, level, xs, k)
            case None => !EverReaches(w, level, xs) && !Reaches(level, Peak(w, xs))
  {
    PeakIsSupremum(w, xs);
    if xs != [] {
      var past := xs[..|xs| - 1];
      FirstAtIsFirst(w, level, past);
      assert forall i :: 0 <= i <= |past| ==> xs[..i] == past[..i];
      assert xs[..|xs|] == xs;
    } else {
      assert xs[..0] == [];
    }
  }

  // ----- trajectory ---------------------------------------------------------------------

  lemma LevelAboveOne(p: Params)
    requires p.Valid()
    ensures p.Level() > 1.0 && p.alpha * p.Level() == 1.0
  {
    var inv := p.Level();
    assert inv * p.alpha == 1.0;
    if inv <= 1.0 {
      MulLeq(inv, 1.0, p.alpha);
    }
  }

  lemma {:induction false} RunCounts(p: Params, xs: seq<bool>)
    requires p.Valid()
    ensures Run(p, xs).t == |xs|
    ensures Run(p, xs).breaches == Breaches(xs) && Run(p, xs).sum == Breaches(xs) as real
  {
    if xs != [] {
      RunCounts(p, xs[..|xs| - 1]);
    }
  }

  lemma {:induction false} RunFloorCapital(p: Params, xs: seq<bool>)
    requires p.Valid() && p.p0 == 0.0
    ensures Run(p, xs).capital == if true in xs then Inf else Fin(1.0)
  {
    if xs != [] {
      RunFloorCapital(p, xs[..|xs| - 1]);
      assert xs == xs[..|xs| - 1] + [xs[|xs| - 1]];
    }
  }

  lemma ScaleStep(p: Params, m: Monitor, x: bool, k: real, f: real)
    requires p.Valid() && p.p0 != 0.0 && m.capital == Fin(k) && f == p.factor(m.t, m.sum, x)
    ensures Update(p, m, x).capital == Fin(k * f)
  {
  }

  lemma {:induction false} RunCapital(p: Params, xs: seq<bool>)
    requires p.Valid()
    ensures Run(p, xs).capital == Wealth(p, xs)
  {
    if p.p0 == 0.0 {
      RunFloorCapital(p, xs);
    } else if xs != [] {
      var past, x := xs[..|xs| - 1], xs[|xs| - 1];
      RunCapital(p, past);
      BetWealthFinite(p.p0, Counted(p.factor), past);
      CapitalStep(p, past, x, Wealth(p, past).k);
      assert xs == past + [x];
    }
  }

  lemma CapitalStep(p: Params, past: seq<bool>, x: bool, k: real)
    requires p.Valid() && p.p0 != 0.0 && Run(p, past).capital == Wealth(p, past) == Fin(k)
    ensures Run(p, past + [x]).capital == Wealth(p, past + [x])
  {
    var f := p.factor(|past|, Breaches(past) as real, x);
    RunCounts(p, past);
    ScaleStep(p, Run(p, past), x, k, f);
    WealthStep(p, past, x, k, f);
    assert (past + [x])[..|past + [x]| - 1] == past;
  }

  lemma PeakStep(p: Params, m: Monitor, x: bool)
    requires p.Valid()
    ensures var next := Update(p, m, x);
      && next.peak == (if Leq(next.capital, m.peak) then m.peak else next.capital)
      && next.firedAt == (if m.firedAt.None? && Reaches(p.Level(), next.peak) then Some(next.t) else m.firedAt)
  {
  }

  /** The streaming state computes the mathematical process: counters, capital, running
      supremum, and the first index at which capital reached 1/alpha. */
  lemma {:induction false} RunComputes(p: Params, xs: seq<bool>)
    requires p.Valid()
    ensures Run(p, xs).t == |xs|
    ensures Run(p, xs).breaches == Breaches(xs) && Run(p, xs).sum == Breaches(xs) as real
    ensures Run(p, xs).capital == Process(p)(xs)
    ensures Run(p, xs).peak == Peak(Process(p), xs)
    ensures Run(p, xs).firedAt == FirstAt(Process(p), p.Level(), xs)
  {
    RunCounts(p, xs);
    RunCapital(p, xs);
    if xs != [] {
      var past := xs[..|xs| - 1];
      RunComputes(p, past);
      PeakStep(p, Run(p, past), xs[|xs| - 1]);
    }
  }

  lemma RunTracksWealth(p: Params, xs: seq<bool>)
    requires p.Valid()
    ensures IsSupremum(Process(p), xs, Run(p, xs).peak)
    ensures match Run(p, xs).firedAt
            case Some(k) => IsFirst(Process(p), p.Level(), xs, k)
            case None => !EverReaches(Process(p), p.Level(), xs)
    ensures Run(p, xs).Fired() <==> Reaches(p.Level(), Run(p, xs).peak)
    ensures Leq(Fin(1.0), Run(p, xs).peak)
  {
    RunComputes(p, xs);
    LevelAboveOne(p);
    var w := Process(p);
    assert w([]) == Fin(1.0) && xs[..0] == [];
    PeakIsSupremum(w, xs);
    FirstAtIsFirst(w, p.Level(), xs);
    assert Leq(w(xs[..0]), Peak(w, xs));
    match FirstAt(w, p.Level(), xs) {
      case None =>
      case Some(k) => assert Leq(w(xs[..k]), Peak(w, xs));
    }
  }

  lemma FiredIsEverReaches(p: Params, xs: seq<bool>)
    requires p.Valid()
    ensures Run(p, xs).Fired() <==> EverReaches(Process(p), p.Level(), xs)
  {
    RunTracksWealth(p, xs);
  }

  lemma ReciprocalOrder(a: real, b: real)
    requires 0.0 < a && 0.0 < b
    ensures a <= b <==> 1.0 / b <= 1.0 / a
  {
    var ra, rb := 1.0 / a, 1.0 / b;
    assert ra * a == 1.0 && rb * b == 1.0;
    UnitProducts(a, ra, b, rb);
    UnitProducts(b, rb, a, ra);
  }

  lemma UnitProducts(a: real, ra: real, b: real, rb: real)
    requires 0.0 < a && 0.0 < b && ra * a == 1.0 && rb * b == 1.0
    ensures a <= b ==> rb <= ra
  {
    if a <= b && ra < rb {
      MulLeq(ra, rb, a);
    }
  }

  /** Firing and the p-value tell the same story: fired exactly when p is at most alpha. */
  lemma FiredIffSignificant(p: Params, xs: seq<bool>)
    requires p.Valid()
    ensures Leq(Fin(1.0), Run(p, xs).peak)
    ensures 0.0 <= PAnytime(Run(p, xs).peak) <= 1.0
    ensures Run(p, xs).Fired() <==> PAnytime(Run(p, xs).peak) <= p.alpha
  {
    RunTracksWealth(p, xs);
    SignificanceOfPeak(p, Run(p, xs).peak);
  }

  lemma SignificanceOfPeak(p: Params, peak: Capital)
    requires p.Valid() && Leq(Fin(1.0), peak)
    ensures 0.0 <= PAnytime(peak) <= 1.0
    ensures Reaches(p.Level(), peak) <==> PAnytime(peak) <= p.alpha
  {
    LevelAboveOne(p);
    if peak.Fin? {
      ReciprocalOrder(1.0, peak.k);
      ReciprocalOrder(p.Level(), peak.k);
      assert 1.0 / p.Level() == p.alpha;
      assert (1.0 / peak.k) * peak.k == 1.0;
    }
  }

  lemma PeakGrows(w: Ville.Process, xs: seq<bool>)
    requires xs != []
    ensures Leq(Peak(w, xs[..|xs| - 1]), Peak(w, xs))
  {
  }

  lemma LeqTransitive(a: Capital, b: Capital, c: Capital)
    requires Leq(a, b) && Leq(b, c)
    ensures Leq(a, c)
  {
  }

  lemma {:induction false} ProcessTrajectory(w: Ville.Process, level: real, xs: seq<bool>, ys: seq<bool>)
    ensures Leq(Peak(w, xs), Peak(w, xs + ys))
    ensures FirstAt(w, level, xs).Some? ==> FirstAt(w, level, xs + ys) == FirstAt(w, level, xs)
    decreases |ys|
  {
    if ys == [] {
      assert xs + ys == xs;
    } else {
      var most := ys[..|ys| - 1];
      ProcessTrajectory(w, level, xs, most);
      assert (xs + ys)[..|xs + ys| - 1] == xs + most;
      PeakGrows(w, xs + ys);
      LeqTransitive(Peak(w, xs), Peak(w, xs + most), Peak(w, xs + ys));
    }
  }

  /** Over every continuation the p-value only falls and a recorded firing never moves. */
  lemma TrajectoryMonotone(p: Params, xs: seq<bool>, ys: seq<bool>)
    requires p.Valid()
    ensures Leq(Fin(1.0), Run(p, xs).peak) && Leq(Fin(1.0), Run(p, xs + ys).peak)
    ensures PAnytime(Run(p, xs + ys).peak) <= PAnytime(Run(p, xs).peak)
    ensures Run(p, xs).Fired() ==> Run(p, xs + ys).firedAt == Run(p, xs).firedAt
  {
    RunTracksWealth(p, xs);
    RunTracksWealth(p, xs + ys);
    RunComputes(p, xs);
    RunComputes(p, xs + ys);
    ProcessTrajectory(Process(p), p.Level(), xs, ys);
    PAnytimeAntitone(Run(p, xs).peak, Run(p, xs + ys).peak);
  }

  lemma PAnytimeAntitone(a: Capital, b: Capital)
    requires Leq(Fin(1.0), a) && Leq(a, b)
    ensures PAnytime(b) <= PAnytime(a)
  {
    if b.Fin? {
      ReciprocalOrder(a.k, b.k);
      ReciprocalOrder(1.0, a.k);
    } else if a.Fin? {
      assert (1.0 / a.k) * a.k == 1.0;
    }
  }

  /** What the bound needs of a strategy: factors 1 + lam * (x - p0) for some nonnegative
      lam, never below one half. */
  ghost predicate SoundAt(p: Params, n: nat, b: real) {
    && p.factor(n, b, true) >= 0.5
    && 0.5 <= p.factor(n, b, false) <= 1.0
    && exists lam: real :: IsBet(p, n, b, lam)
  }

  ghost predicate IsBet(p: Params, n: nat, b: real, lam: real) {
    && lam >= 0.0
    && p.factor(n, b, true) == 1.0 + lam * (1.0 - p.p0)
    && p.factor(n, b, false) == 1.0 + lam * (0.0 - p.p0)
  }

  ghost predicate Sound(p: Params) {
    p.p0 > 0.0 ==> forall n: nat, b: real :: SoundAt(p, n, b)
  }

  lemma BetBounds(p0: real, n: nat, b: real)
    requires 0.0 < p0 < 1.0
    ensures 0.0 <= PlugInBet(p0, n, b)
    ensures PlugInBet(p0, n, b) * p0 <= BET_TRUNCATION
  {
    var cap := BET_TRUNCATION / p0;
    assert cap * p0 == BET_TRUNCATION;
    ClampBounds(0.0, cap, ((0.5 + b) / (n as real + 1.0) - p0) / (p0 * (1.0 - p0)));
    assert cap >= 0.0 by {
      if cap < 0.0 { MulLeq(cap, 0.0, p0); }
    }
    MulLeq(PlugInBet(p0, n, b), cap, p0);
  }

  lemma ClampBounds(lo: real, hi: real, x: real)
    ensures lo <= Clamp(lo, hi, x) && (lo <= hi ==> Clamp(lo, hi, x) <= hi)
  {
  }

  lemma TruncatedFactors(lam: real, p0: real)
    requires 0.0 < p0 < 1.0 && lam >= 0.0 && lam * p0 <= BET_TRUNCATION
    ensures 1.0 + lam * (1.0 - p0) >= 0.5
    ensures 0.5 <= 1.0 + lam * (0.0 - p0) <= 1.0
  {
    MulLeq(0.0, lam, 1.0 - p0);
    MulLeq(0.0, lam, p0);
    assert lam * (0.0 - p0) == -(lam * p0);
  }

  /** Truncation keeps every plug-in factor at least one half, and no bet is negative. */
  lemma PlugInSoundAt(alpha: real, p0: real, n: nat, b: real)
    requires 0.0 < p0 < 1.0
    ensures SoundAt(Shipped(alpha, p0), n, b)
  {
    var lam := PlugInBet(p0, n, b);
    BetBounds(p0, n, b);
    TruncatedFactors(lam, p0);
    assert IsBet(Shipped(alpha, p0), n, b, lam);
  }

  lemma ShippedIsSound(alpha: real, p0: real)
    requires Shipped(alpha, p0).Valid()
    ensures Sound(Shipped(alpha, p0))
  {
    if p0 > 0.0 {
      forall n: nat, b: real ensures SoundAt(Shipped(alpha, p0), n, b) {
        PlugInSoundAt(alpha, p0, n, b);
      }
    }
  }

  lemma PositiveTimes(a: real, b: real)
    requires a > 0.0 && b >= 0.5
    ensures a * b > 0.0
  {
  }

  lemma WealthStep(p: Params, h: seq<bool>, x: bool, k: real, f: real)
    requires p.Valid() && p.p0 > 0.0 && Wealth(p, h) == Fin(k)
    requires f == p.factor(|h|, Breaches(h) as real, x)
    ensures Wealth(p, h + [x]) == Fin(k * f)
  {
    BetWealthStep(p.p0, Counted(p.factor), h, x, k, f);
  }

  lemma {:induction false} WealthPositive(p: Params, xs: seq<bool>)
    requires p.Valid() && p.p0 > 0.0 && Sound(p)
    ensures Wealth(p, xs).Fin? && Wealth(p, xs).k > 0.0
  {
    if xs != [] {
      var past, x := xs[..|xs| - 1], xs[|xs| - 1];
      WealthPositive(p, past);
      assert xs == past + [x];
      assert SoundAt(p, |past|, Breaches(past) as real);
      var k, f := Wealth(p, past).k, p.factor(|past|, Breaches(past) as real, x);
      WealthStep(p, past, x, k, f);
      PositiveTimes(k, f);
    }
  }

  lemma {:induction false} CleanWealthAtMostOne(p: Params, xs: seq<bool>)
    requires p.Valid() && Sound(p) && true !in xs
    ensures Leq(Wealth(p, xs), Fin(1.0))
  {
    if xs != [] && p.p0 != 0.0 {
      var past := xs[..|xs| - 1];
      CleanWealthAtMostOne(p, past);
      assert !xs[|xs| - 1];
      assert xs == past + [false];
      WealthPositive(p, past);
      assert SoundAt(p, |past|, Breaches(past) as real);
      var k, f := Wealth(p, past).k, p.factor(|past|, Breaches(past) as real, false);
      WealthStep(p, past, false, k, f);
      AtMostOneTimes(k, f);
    }
  }

  lemma AtMostOneTimes(k: real, f: real)
    requires 0.0 < k <= 1.0 && f <= 1.0
    ensures k * f <= 1.0
  {
    MulLeq(f, 1.0, k);
  }

  /** A clean stream accumulates no evidence: p stays exactly 1 for every null and level. */
  lemma CleanStreamKeepsP(p: Params, xs: seq<bool>)
    requires p.Valid() && p == Shipped(p.alpha, p.p0) && true !in xs
    ensures Run(p, xs).peak == Fin(1.0) && PAnytime(Run(p, xs).peak) == 1.0 && !Run(p, xs).Fired()
  {
    ShippedIsSound(p.alpha, p.p0);
    RunTracksWealth(p, xs);
    LevelAboveOne(p);
    forall i | 0 <= i <= |xs| ensures Leq(Process(p)(xs[..i]), Fin(1.0)) {
      CleanWealthAtMostOne(p, xs[..i]);
    }
  }

  /** At the deterministic floor the first breach, and nothing else, fires the monitor. */
  lemma FloorFiresAtFirstBreach(p: Params, xs: seq<bool>, k: nat)
    requires p.Valid() && p.p0 == 0.0
    requires k < |xs| && xs[k] && true !in xs[..k]
    ensures Run(p, xs).firedAt == Some(k + 1) && Run(p, xs).peak == Inf
  {
    RunTracksWealth(p, xs);
    LevelAboveOne(p);
    var w := Process(p);
    assert xs[..k + 1][k];
    assert w(xs[..k + 1]) == Inf && Leq(w(xs[..k + 1]), Run(p, xs).peak);
    assert EverReaches(w, p.Level(), xs);
    forall j | 0 <= j <= k ensures w(xs[..j]) == Fin(1.0) {
      assert xs[..j] == xs[..k][..j];
    }
  }

  // ----- Ville's bound for the monitor --------------------------------------------------

  lemma SoundBetsCounted(p: Params)
    requires p.Valid() && Sound(p)
    ensures SoundBets(p.p0, Counted(p.factor))
  {
    if p.p0 > 0.0 {
      forall h ensures SoundBetAt(p.p0, Counted(p.factor), h) {
        var n, b := |h|, Breaches(h) as real;
        assert SoundAt(p, n, b);
        var lam: real :| IsBet(p, n, b, lam);
        assert BetsAt(p.p0, Counted(p.factor), h, lam);
      }
    }
  }

  /** The monitor's capital is fair under the null. */
  lemma MonitorIsFair(p: Params, adv: Adversary, h: seq<bool>)
    requires p.Valid() && Sound(p) && WithinNull(p.p0, adv)
    ensures FairStep(Process(p), adv, h)
  {
    SoundBetsCounted(p);
    BetsAreFair(p.p0, Counted(p.factor), adv, h);
  }

  /** Ville: whatever the horizon, level, null and history-dependent adversary within the
      null, the streams on which the shipped monitor fires weigh at most alpha. */
  lemma VilleBound(alpha: real, p0: real, adv: Adversary, n: nat, fires: seq<bool> -> bool)
    requires Shipped(alpha, p0).Valid() && WithinNull(p0, adv)
    requires forall xs :: fires(xs) <==> Run(Shipped(alpha, p0), xs).Fired()
    ensures Mass(fires, adv, [], Streams(n)) <= alpha
  {
    ShippedIsSound(alpha, p0);
    SoundVilleBound(Shipped(alpha, p0), adv, n, fires);
  }

  /** The same for a monitor with any sound strategy on its two counters. */
  lemma SoundVilleBound(p: Params, adv: Adversary, n: nat, fires: seq<bool> -> bool)
    requires p.Valid() && Sound(p) && WithinNull(p.p0, adv)
    requires forall xs :: fires(xs) <==> Run(p, xs).Fired()
    ensures Mass(fires, adv, [], Streams(n)) <= p.alpha
  {
    LevelAboveOne(p);
    SoundBetsCounted(p);
    forall g ensures fires(g) <==> EverReaches(Process(p), p.Level(), g) {
      FiredIsEverReaches(p, g);
    }
    assert Marks(fires, Process(p), p.Level());
    PredictableVilleBound(p.p0, p.alpha, p.Level(), Counted(p.factor), adv, n, fires);
  }
}
