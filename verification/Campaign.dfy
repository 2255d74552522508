/**
 A certified campaign: the attacker runs over every seed through one recorder, and the
 recorded stream is what the survival monitor judges.
 */
module Campaign {
  import opened Wrappers
  import opened Attack
  import Survival
  import Ville

  /** The queries spent on one seed as breach indicators: all held, except a final breach
      exactly when the seed was bypassed. */
  function Segment(r: AttackResult): (s: seq<bool>)
    ensures |s| == r.queriesUsed
  {
    if r.queriesUsed == 0 then [] else seq(r.queriesUsed - 1, _ => false) + [r.bypassed]
  }

  function Stream(results: seq<AttackResult>): seq<bool> {
    if results == [] then [] else Stream(results[..|results| - 1]) + Segment(results[|results| - 1])
  }

  function Spent(results: seq<AttackResult>): nat {
    if results == [] then 0 else Spent(results[..|results| - 1]) + results[|results| - 1].queriesUsed
  }

  function BypassCount(results: seq<AttackResult>): nat {
    if results == [] then 0
    else BypassCount(results[..|results| - 1]) + (if results[|results| - 1].bypassed then 1 else 0)
  }

  ghost predicate AllQueried(results: seq<AttackResult>) {
    forall r :: r in results ==> r.queriesUsed >= 1
  }

  function AdaptiveAsr(results: seq<AttackResult>): real {
    if results == [] then 0.0 else BypassCount(results) as real / |results| as real
  }

  // ----- accounting ---------------------------------------------------------------------

  lemma {:induction false} BreachesConcat(a: seq<bool>, b: seq<bool>)
    ensures Survival.Breaches(a + b) == Survival.Breaches(a) + Survival.Breaches(b)
  {
    if b == [] {
      assert a + b == a;
    } else {
      assert (a + b)[..|a + b| - 1] == a + b[..|b| - 1];
      BreachesConcat(a, b[..|b| - 1]);
    }
  }

  lemma {:induction false} NoBreaches(s: seq<bool>)
    requires true !in s
    ensures Survival.Breaches(s) == 0
  {
    if s != [] {
      NoBreaches(s[..|s| - 1]);
      assert !s[|s| - 1];
    }
  }

  lemma SegmentBreaches(r: AttackResult)
    requires r.queriesUsed >= 1
    ensures Survival.Breaches(Segment(r)) == if r.bypassed then 1 else 0
    ensures true in Segment(r) <==> r.bypassed
  {
    var held := seq(r.queriesUsed - 1, _ => false);
    NoBreaches(held);
    assert Segment(r)[..|Segment(r)| - 1] == held;
    assert Segment(r)[|Segment(r)| - 1] == r.bypassed;
  }

  ghost predicate SomeBypassed(results: seq<AttackResult>) {
    exists i :: 0 <= i < |results| && results[i].bypassed
  }

  lemma SomeBypassedPush(most: seq<AttackResult>, last: AttackResult)
    ensures SomeBypassed(most + [last]) <==> SomeBypassed(most) || last.bypassed
  {
    var all := most + [last];
    assert all[|most|] == last && forall i :: 0 <= i < |most| ==> all[i] == most[i];
  }

  lemma {:induction false} StreamSpends(results: seq<AttackResult>)
    ensures |Stream(results)| == Spent(results)
  {
    if results != [] {
      StreamSpends(results[..|results| - 1]);
    }
  }

  lemma {:induction false} StreamBreaches(results: seq<AttackResult>)
    requires AllQueried(results)
    ensures Survival.Breaches(Stream(results)) == BypassCount(results)
  {
    if results != [] {
      var most, last := results[..|results| - 1], results[|results| - 1];
      assert last in results && forall r :: r in most ==> r in results;
      StreamBreaches(most);
      SegmentBreaches(last);
      BreachesConcat(Stream(most), Segment(last));
    }
  }

  lemma {:induction false} BreachesPositive(s: seq<bool>)
    ensures true in s <==> Survival.Breaches(s) > 0
  {
    if s != [] {
      BreachesPositive(s[..|s| - 1]);
      assert s == s[..|s| - 1] + [s[|s| - 1]];
    }
  }

  lemma {:induction false} BypassCountPositive(results: seq<AttackResult>)
    ensures BypassCount(results) > 0 <==> SomeBypassed(results)
  {
    if results != [] {
      var most, last := results[..|results| - 1], results[|results| - 1];
      BypassCountPositive(most);
      SomeBypassedPush(most, last);
      assert results == most + [last];
    }
  }

  /** The stream spends exactly the reported queries and breaches once per bypassed seed. */
  lemma StreamAccounts(results: seq<AttackResult>)
    requires AllQueried(results)
    ensures |Stream(results)| == Spent(results)
    ensures Survival.Breaches(Stream(results)) == BypassCount(results)
    ensures true in Stream(results) <==> SomeBypassed(results)
  {
    StreamSpends(results);
    StreamBreaches(results);
    BreachesPositive(Stream(results));
    BypassCountPositive(results);
  }

  lemma {:induction false} StreamSplit(results: seq<AttackResult>, k: nat)
    requires k <= |results|
    ensures Stream(results[..k]) <= Stream(results)
  {
    if k < |results| {
      var most := results[..|results| - 1];
      assert most[..k] == results[..k];
      StreamSplit(most, k);
    } else {
      assert results[..k] == results;
    }
  }

  /** Clean so far, then a segment that ends in its only breach. */
  lemma BreachAtEnd(clean: seq<bool>, r: AttackResult, n: nat)
    requires true !in clean && r.queriesUsed >= 1 && r.bypassed && n == |clean| + r.queriesUsed
    ensures |clean + Segment(r)| == n && (clean + Segment(r))[n - 1] && true !in (clean + Segment(r))[..n - 1]
  {
    var seg := Segment(r);
    assert seg[|seg| - 1] && forall i :: 0 <= i < |seg| - 1 ==> !seg[i];
    assert (clean + seg)[..n - 1] == clean + seg[..|seg| - 1];
  }

  /** The first breach sits at the summed query count through the first bypassed seed. */
  lemma FirstBreachPosition(results: seq<AttackResult>, k: nat)
    requires AllQueried(results) && FirstBypass(results, k)
    ensures var n := Spent(results[..k + 1]);
            1 <= n <= |Stream(results)| && Stream(results)[n - 1] && true !in Stream(results)[..n - 1]
  {
    var upto, before := results[..k + 1], results[..k];
    assert upto[..k] == before && upto[k] == results[k] && |upto| == k + 1;
    assert AllQueried(before);
    StreamAccounts(before);
    assert !SomeBypassed(before);
    StreamSplit(results, k + 1);
    assert Stream(upto) == Stream(before) + Segment(results[k]);
    assert results[k] in results;
    var n := Spent(upto);
    BreachAtEnd(Stream(before), results[k], n);
    assert Stream(results)[..n - 1] == Stream(upto)[..n - 1];
  }

  ghost predicate FirstBypass(results: seq<AttackResult>, k: nat) {
    k < |results| && results[k].bypassed && forall i :: 0 <= i < k ==> !results[i].bypassed
  }

  lemma {:induction false} FirstBypassExists(results: seq<AttackResult>, j: nat)
    requires j < |results| && results[j].bypassed
    ensures exists k: nat :: FirstBypass(results, k)
  {
    if i: nat :| i < j && results[i].bypassed {
      FirstBypassExists(results, i);
    } else {
      assert FirstBypass(results, j);
    }
  }

  /** At p0 = 0 the monitor fires exactly when some seed was bypassed, and at the summed
      query count through the first such seed; otherwise its p-value is still 1. */
  lemma FloorVerdict(alpha: real, results: seq<AttackResult>)
    requires 0.0 < alpha < 1.0 && AllQueried(results)
    ensures var m := Survival.Run(Survival.Shipped(alpha, 0.0), Stream(results));
            && (m.Fired() <==> SomeBypassed(results))
            && (forall k: nat :: FirstBypass(results, k) ==> m.firedAt == Some(Spent(results[..k + 1])))
            && m.peak == if m.Fired() then Ville.Inf else Ville.Fin(1.0)
  {
    var p, s := Survival.Shipped(alpha, 0.0), Stream(results);
    StreamAccounts(results);
    if j :| 0 <= j < |results| && results[j].bypassed {
      FirstBypassExists(results, j);
      forall k: nat | FirstBypass(results, k)
        ensures Survival.Run(p, s).firedAt == Some(Spent(results[..k + 1])) && Survival.Run(p, s).peak == Ville.Inf
      {
        FirstBreachPosition(results, k);
        Survival.FloorFiresAtFirstBreach(p, s, Spent(results[..k + 1]) - 1);
      }
    } else {
      Survival.CleanStreamKeepsP(p, s);
    }
  }

  // ----- running the campaign -----------------------------------------------------------

  /** What one report says about the queries behind it is exactly its segment. */
  lemma ReportIsSegment(cfg: Config, seed: AttackSeed, asked: seq<Query>, r: AttackResult)
    requires Reports(cfg, seed, asked, r)
    ensures r.queriesUsed == |asked| && Indicators(asked) == Segment(r)
  {
    forall i | 0 <= i < |asked| - 1 ensures !IsBypass(asked[i].result) {
      assert !IsBypass(asked[..|asked| - 1][i].result);
    }
  }

  /** Each report is what the search of its seed says. */
  ghost predicate AllReported(cfg: Config, seeds: seq<AttackSeed>, results: seq<AttackResult>) {
    && |results| == |seeds|
    && forall i :: 0 <= i < |seeds| ==> SearchReports(cfg, seeds[i], results[i])
  }

  ghost predicate SearchReports(cfg: Config, seed: AttackSeed, r: AttackResult) {
    Reports(cfg, seed, Search(cfg, seed), r)
  }

  lemma CampaignPush(cfg: Config, seeds: seq<AttackSeed>, results: seq<AttackResult>, i: nat, asked: seq<Query>, r: AttackResult)
    requires i < |seeds| && AllReported(cfg, seeds[..i], results) && AllQueried(results)
    requires Reports(cfg, seeds[i], asked, r) && SearchReports(cfg, seeds[i], r)
    ensures AllReported(cfg, seeds[..i + 1], results + [r]) && AllQueried(results + [r])
    ensures Stream(results + [r]) == Stream(results) + Indicators(asked)
  {
    ReportIsSegment(cfg, seeds[i], asked, r);
    assert (results + [r])[..|results|] == results;
    forall k | 0 <= k <= i ensures SearchReports(cfg, seeds[..i + 1][k], (results + [r])[k]) {
      if k < i {
        assert SearchReports(cfg, seeds[..i][k], results[k]);
      }
    }
  }

  method RunAdaptiveCampaign(cfg: Config, seeds: seq<AttackSeed>, recorder: BreachStreamRecorder)
    returns (results: seq<AttackResult>)
    requires cfg.Valid() && recorder.inner == cfg.scorer && recorder.stream == []
    modifies recorder
    ensures AllReported(cfg, seeds, results)
    ensures AllQueried(results) && recorder.stream == Stream(results)
  {
    var attacker := new AdaptiveAttacker(cfg, recorder);
    results := [];
    for i := 0 to |seeds|
      invariant attacker.cfg == cfg && attacker.recorder == recorder && fresh(attacker)
      invariant AllReported(cfg, seeds[..i], results)
      invariant AllQueried(results) && recorder.stream == Stream(results)
    {
      var r, asked := attacker.Attack(seeds[i]);
      CampaignPush(cfg, seeds, results, i, asked, r);
      results := results + [r];
    }
    assert seeds[..|seeds|] == seeds;
  }

  datatype Coverage = Coverage(
    nSeeds: nat, seedIds: seq<string>, queryBudget: int, queriesSpent: nat, minQueriesPerSeed: nat)
  {
    predicate Vacuous() { nSeeds == 0 || queriesSpent == 0 }
  }

  datatype Certified = Certified(
    results: seq<AttackResult>, stream: seq<bool>, survival: Survival.Monitor, coverage: Coverage)

  function CoverageOf(cfg: Config, results: seq<AttackResult>, stream: seq<bool>, least: nat): Coverage {
    Coverage(|results|, seq(|results|, i requires 0 <= i < |results| => results[i].seedId), cfg.budget, |stream|, least)
  }

  method MinQueries(results: seq<AttackResult>) returns (m: nat)
    requires results != []
    ensures exists i :: 0 <= i < |results| && results[i].queriesUsed == m
    ensures forall i :: 0 <= i < |results| ==> m <= results[i].queriesUsed
  {
    m := results[0].queriesUsed;
    for k := 1 to |results|
      invariant exists i :: 0 <= i < k && results[i].queriesUsed == m
      invariant forall i :: 0 <= i < k ==> m <= results[i].queriesUsed
    {
      if results[k].queriesUsed < m {
        m := results[k].queriesUsed;
      }
    }
  }

  /** The certificate's promises about the campaign it summarises. */
  ghost predicate Attests(cfg: Config, seeds: seq<AttackSeed>, alpha: real, p0: real, c: Certified)
    requires 0.0 < alpha < 1.0 && 0.0 <= p0 < 1.0
  {
    && AllReported(cfg, seeds, c.results) && AllQueried(c.results)
    && c.stream == Stream(c.results)
    && c.survival == Survival.Run(Survival.Shipped(alpha, p0), c.stream)
    && c.survival.breaches == BypassCount(c.results)
    && c.coverage.queryBudget == cfg.budget
    && c.coverage.nSeeds == |seeds| && c.coverage.seedIds == seq(|seeds|, i requires 0 <= i < |seeds| => seeds[i].id)
    && c.coverage.queriesSpent == Spent(c.results) == c.survival.t
    && (forall i :: 0 <= i < |c.results| ==> c.coverage.minQueriesPerSeed <= c.results[i].queriesUsed)
    && (exists i :: 0 <= i < |c.results| && c.results[i].queriesUsed == c.coverage.minQueriesPerSeed)
    && c.coverage.minQueriesPerSeed >= 1
    && !c.coverage.Vacuous()
  }

  /** What a fresh monitor makes of a recorded stream. */
  method MonitorStream(stream: seq<bool>, alpha: real, p0: real) returns (m: Option<Survival.Monitor>)
    ensures m.None? <==> !(0.0 < alpha < 1.0 && 0.0 <= p0 < 1.0)
    ensures m.Some? ==> m.value == Survival.Run(Survival.Shipped(alpha, p0), stream)
  {
    var monitor := Survival.SurvivalMonitor.Create(alpha, p0);
    if monitor == null {
      return None;
    }
    monitor.ObserveAll(stream);
    return Some(monitor.View());
  }

  /** Run and certify; an empty corpus or an invalid level or null is refused. */
  method RunCertifiedCampaign(cfg: Config, seeds: seq<AttackSeed>, alpha: real, p0: real)
    returns (c: Option<Certified>)
    requires cfg.Valid()
    ensures c.None? <==> seeds == [] || !(0.0 < alpha < 1.0 && 0.0 <= p0 < 1.0)
    ensures c.Some? ==> Attests(cfg, seeds, alpha, p0, c.value)
  {
    if seeds == [] {
      return None;
    }
    var recorder := new BreachStreamRecorder(cfg.scorer);
    var results := RunAdaptiveCampaign(cfg, seeds, recorder);
    var outcome := MonitorStream(recorder.stream, alpha, p0);
    if outcome.None? {
      return None;
    }
    var least := MinQueries(results);
    c := Some(Certified(results, recorder.stream, outcome.value, CoverageOf(cfg, results, recorder.stream, least)));
    AttestsCampaign(cfg, seeds, alpha, p0, c.value);
  }

  lemma ReportedIds(cfg: Config, seeds: seq<AttackSeed>, results: seq<AttackResult>)
    requires AllReported(cfg, seeds, results)
    ensures |results| == |seeds| && forall i :: 0 <= i < |results| ==> results[i].seedId == seeds[i].id
  {
    forall i | 0 <= i < |results| ensures results[i].seedId == seeds[i].id {
      assert SearchReports(cfg, seeds[i], results[i]);
      ReportIsHonest(cfg, seeds[i], Search(cfg, seeds[i]), results[i]);
    }
  }

  lemma AttestsCampaign(cfg: Config, seeds: seq<AttackSeed>, alpha: real, p0: real, c: Certified)
    requires 0.0 < alpha < 1.0 && 0.0 <= p0 < 1.0 && seeds != []
    requires AllReported(cfg, seeds, c.results) && AllQueried(c.results) && c.stream == Stream(c.results)
    requires c.survival == Survival.Run(Survival.Shipped(alpha, p0), c.stream)
    requires c.coverage.nSeeds == |c.results| && c.coverage.queriesSpent == |c.stream|
    requires c.coverage.queryBudget == cfg.budget
    requires |c.coverage.seedIds| == |c.results|
          && forall i :: 0 <= i < |c.results| ==> c.coverage.seedIds[i] == c.results[i].seedId
    requires exists i :: 0 <= i < |c.results| && c.results[i].queriesUsed == c.coverage.minQueriesPerSeed
    requires forall i :: 0 <= i < |c.results| ==> c.coverage.minQueriesPerSeed <= c.results[i].queriesUsed
    ensures Attests(cfg, seeds, alpha, p0, c)
  {
    ReportedIds(cfg, seeds, c.results);
    SameIds(seeds, c.results, c.coverage.seedIds);
    CountsAgree(alpha, p0, c.results, c.stream, c.survival);
  }

  lemma SameIds(seeds: seq<AttackSeed>, results: seq<AttackResult>, ids: seq<string>)
    requires |ids| == |results| == |seeds|
    requires forall i :: 0 <= i < |results| ==> ids[i] == results[i].seedId && results[i].seedId == seeds[i].id
    ensures ids == seq(|seeds|, i requires 0 <= i < |seeds| => seeds[i].id)
  {
  }

  lemma CountsAgree(alpha: real, p0: real, results: seq<AttackResult>, stream: seq<bool>, m: Survival.Monitor)
    requires 0.0 < alpha < 1.0 && 0.0 <= p0 < 1.0 && results != [] && AllQueried(results)
    requires stream == Stream(results) && m == Survival.Run(Survival.Shipped(alpha, p0), stream)
    ensures m.breaches == BypassCount(results) && |stream| == Spent(results) == m.t && Spent(results) >= 1
  {
    StreamAccounts(results);
    Survival.RunCounts(Survival.Shipped(alpha, p0), stream);
    NonemptySpends(results);
  }

  lemma NonemptySpends(results: seq<AttackResult>)
    requires results != [] && AllQueried(results)
    ensures Spent(results) >= 1
  {
    assert results[|results| - 1] in results;
  }

  /** The seeds that were bypassed. */
  function Bypassed(results: seq<AttackResult>): set<nat> { set i: nat | i < |results| && results[i].bypassed }

  lemma {:induction false} BypassesCounted(results: seq<AttackResult>)
    ensures BypassCount(results) == |Bypassed(results)| <= |results|
  {
    if results == [] {
      assert Bypassed(results) == {};
    } else {
      var n := |results| - 1;
      BypassesCounted(results[..n]);
      var here: set<nat> := if results[n].bypassed then {n} else {};
      assert Bypassed(results) == Bypassed(results[..n]) + here;
    }
  }

  /** The reported attack success rate is the bypassed share of the seeds, between 0 and 1. */
  lemma RateIsShare(results: seq<AttackResult>)
    requires results != []
    ensures AdaptiveAsr(results) * |results| as real == |Bypassed(results)| as real
    ensures 0.0 <= AdaptiveAsr(results) <= 1.0
  {
    BypassesCounted(results);
    ShareBounds(BypassCount(results) as real, |results| as real, AdaptiveAsr(results));
  }

  lemma ShareBounds(b: real, n: real, r: real)
    requires n > 0.0 && 0.0 <= b <= n && r == b / n
    ensures r * n == b && 0.0 <= r <= 1.0
  {
    assert r * n == b;
    if r < 0.0 {
      PositiveShare(0.0 - r, n);
    } else if r > 1.0 {
      PositiveShare(r - 1.0, n);
    }
  }

  lemma PositiveShare(x: real, n: real)
    requires x > 0.0 && n > 0.0
    ensures x * n > 0.0
  {
  }
}
