/** What the beam search cannot miss: attacks by chains of operators, to any depth. */
module Depth {
  import opened Wrappers
  import opened Attack

  /** The content a chain of operators leads to, as long as each changes what it is given. */
  function Follow(cfg: Config, content: string, chain: seq<nat>): Option<string> {
    if chain == [] then Some(content)
    else
      match Follow(cfg, content, chain[..|chain| - 1])
      case None => None
      case Some(c) =>
        var i := chain[|chain| - 1];
        if i >= |cfg.ops| then None
        else
          match cfg.ops[i].apply(c)
          case None => None
          case Some(m) => if m == c then None else Some(m)
  }

  function Names(cfg: Config, chain: seq<nat>): seq<string> {
    if chain == [] then []
    else
      var i := chain[|chain| - 1];
      Names(cfg, chain[..|chain| - 1]) + [if i < |cfg.ops| then cfg.ops[i].name else ""]
  }

  /** The chain gets its mutation of the seed through. */
  ghost predicate Wins(cfg: Config, seed: AttackSeed, chain: seq<nat>) {
    match Follow(cfg, seed.content, chain)
    case None => false
    case Some(c) => IsBypass(cfg.scorer(c, seed.metadata))
  }

  /** n * n * ... * n, d times. */
  function Power(n: nat, d: nat): nat { if d == 0 then 1 else n * Power(n, d - 1) }

  /** 1 + n + ... + n^d: all chains of at most d operators. */
  function Chains(n: nat, d: nat): nat { if d == 0 then 1 else Chains(n, d - 1) + Power(n, d) }

  lemma {:induction false} PowerGrows(n: nat, d: nat, e: nat)
    requires n >= 1 && d <= e
    ensures 1 <= Power(n, d) <= Power(n, e)
    decreases e
  {
    if d < e {
      PowerGrows(n, d, e - 1);
      MulGrows(n, Power(n, e - 1));
    } else if d > 0 {
      PowerGrows(n, d - 1, e - 1);
      MulGrows(n, Power(n, e - 1));
    }
  }

  lemma MulGrows(n: nat, p: nat)
    requires n >= 1
    ensures n * p >= p
  {
  }

  lemma {:induction false} ChainsGrow(n: nat, d: nat, e: nat)
    requires d <= e
    ensures Chains(n, d) <= Chains(n, e)
    decreases e
  {
    if d < e {
      ChainsGrow(n, d, e - 1);
    }
  }

  // ----- sizes ----------------------------------------------------------------------------

  lemma {:induction false} TriesSize(cfg: Config, seed: AttackSeed, entry: BeamEntry, order: seq<nat>)
    ensures |Tries(cfg, seed, entry, order)| <= |order|
  {
    if order != [] {
      TriesSize(cfg, seed, entry, order[..|order| - 1]);
    }
  }

  lemma {:induction false} QueueSize(cfg: Config, seed: AttackSeed, beam: seq<BeamEntry>, order: seq<nat>)
    ensures |Queue(cfg, seed, beam, order)| <= |order| * |beam|
  {
    if beam != [] {
      QueueSize(cfg, seed, beam[..|beam| - 1], order);
      TriesSize(cfg, seed, beam[|beam| - 1], order);
      assert |order| * |beam| == |order| * (|beam| - 1) + |order|;
    }
  }

  lemma MulMonotone(n: nat, a: nat, b: nat)
    requires a <= b
    ensures n * a <= n * b
  {
  }

  // ----- every chain is queued ------------------------------------------------------------

  lemma {:induction false} TriedOnes(cfg: Config, seed: AttackSeed, entry: BeamEntry, order: seq<nat>, i: nat, q: Query)
    requires i in order && q in TryOne(cfg, seed, entry, i)
    ensures q in Tries(cfg, seed, entry, order)
  {
    var most := order[..|order| - 1];
    assert order == most + [order[|order| - 1]];
    if i != order[|order| - 1] {
      TriedOnes(cfg, seed, entry, most, i, q);
    }
  }

  lemma {:induction false} QueuedOnes(cfg: Config, seed: AttackSeed, beam: seq<BeamEntry>, order: seq<nat>, entry: BeamEntry, q: Query)
    requires entry in beam && q in Tries(cfg, seed, entry, order)
    ensures q in Queue(cfg, seed, beam, order)
  {
    var most := beam[..|beam| - 1];
    assert beam == most + [beam[|beam| - 1]];
    if entry != beam[|beam| - 1] {
      QueuedOnes(cfg, seed, most, order, entry, q);
    }
  }

  /** The query a chain ends in. */
  ghost function QueryOf(cfg: Config, seed: AttackSeed, chain: seq<nat>): Query
    requires Follow(cfg, seed.content, chain).Some?
  {
    var c := Follow(cfg, seed.content, chain).value;
    Query(c, Names(cfg, chain), cfg.scorer(c, seed.metadata))
  }

  /** The beam holds the end of every chain of d operators. */
  ghost predicate Covers(cfg: Config, seed: AttackSeed, beam: seq<BeamEntry>, d: nat) {
    forall chain: seq<nat> :: |chain| == d && Follow(cfg, seed.content, chain).Some? ==>
      (Follow(cfg, seed.content, chain).value, Names(cfg, chain)) in beam
  }

  lemma ChainIsQueued(cfg: Config, seed: AttackSeed, beam: seq<BeamEntry>, d: nat, chain: seq<nat>)
    requires cfg.Valid() && Covers(cfg, seed, beam, d) && |chain| == d + 1 && Follow(cfg, seed.content, chain).Some?
    ensures QueryOf(cfg, seed, chain) in Queue(cfg, seed, beam, cfg.order(d))
  {
    var front, i := chain[..d], chain[d];
    assert chain[..|chain| - 1] == front;
    var entry := (Follow(cfg, seed.content, front).value, Names(cfg, front));
    assert entry in beam;
    assert TryOne(cfg, seed, entry, i) == [QueryOf(cfg, seed, chain)];
    assert IsShuffle(cfg.order(d), |cfg.ops|);
    TriedOnes(cfg, seed, entry, cfg.order(d), i, QueryOf(cfg, seed, chain));
    QueuedOnes(cfg, seed, beam, cfg.order(d), entry, QueryOf(cfg, seed, chain));
  }

  lemma {:induction false} FollowPrefix(cfg: Config, content: string, chain: seq<nat>, k: nat)
    requires k <= |chain| && Follow(cfg, content, chain).Some?
    ensures Follow(cfg, content, chain[..k]).Some?
    decreases |chain|
  {
    if k < |chain| {
      var most := chain[..|chain| - 1];
      assert most[..k] == chain[..k];
      FollowPrefix(cfg, content, most, k);
    } else {
      assert chain[..k] == chain;
    }
  }

  /** A wide enough beam keeps every candidate of a level. */
  lemma KeepsAll(cfg: Config, level: seq<Query>, q: Query)
    requires |level| <= cfg.beamWidth && q in level
    ensures (q.content, q.chain) in NextBeam(cfg, level)
  {
    SortDescCorrect(level, 0.0);
    var sorted := SortDesc(level);
    assert |sorted| == |multiset(sorted)| == |multiset(level)| == |level|;
    SameBagSameMembers(level, sorted, q);
    var i :| 0 <= i < |sorted| && sorted[i] == q;
    assert NextBeam(cfg, level)[i] == (q.content, q.chain);
  }

  lemma NextSize(cfg: Config, level: seq<Query>)
    ensures |NextBeam(cfg, level)| <= |level|
  {
    SortDescCorrect(level, 0.0);
    assert |SortDesc(level)| == |multiset(SortDesc(level))| == |multiset(level)| == |level|;
  }

  lemma CoversNext(cfg: Config, seed: AttackSeed, beam: seq<BeamEntry>, d: nat)
    requires cfg.Valid() && Covers(cfg, seed, beam, d) && |Queue(cfg, seed, beam, cfg.order(d))| <= cfg.beamWidth
    ensures Covers(cfg, seed, NextBeam(cfg, Queue(cfg, seed, beam, cfg.order(d))), d + 1)
  {
    var level := Queue(cfg, seed, beam, cfg.order(d));
    forall chain: seq<nat> | |chain| == d + 1 && Follow(cfg, seed.content, chain).Some?
      ensures (Follow(cfg, seed.content, chain).value, Names(cfg, chain)) in NextBeam(cfg, level)
    {
      ChainIsQueued(cfg, seed, beam, d, chain);
      KeepsAll(cfg, level, QueryOf(cfg, seed, chain));
    }
  }

  // ----- completeness in depth --------------------------------------------------------------

  /** Width and budget that no search over these operators can exhaust. */
  ghost predicate Roomy(cfg: Config) {
    cfg.maxDepth >= 0 && cfg.beamWidth >= Power(|cfg.ops|, cfg.maxDepth) && cfg.budget > Chains(|cfg.ops|, cfg.maxDepth)
  }

  lemma LevelFits(cfg: Config, seed: AttackSeed, beam: seq<BeamEntry>, d: nat, spent: nat)
    requires cfg.Valid() && Roomy(cfg) && |cfg.ops| >= 1 && d < cfg.maxDepth
    requires |beam| <= Power(|cfg.ops|, d) && spent <= Chains(|cfg.ops|, d)
    ensures var q := Queue(cfg, seed, beam, cfg.order(d));
            && |q| <= Power(|cfg.ops|, d + 1) && |q| <= cfg.budget - spent && |q| <= cfg.beamWidth
            && spent + |q| <= Chains(|cfg.ops|, d + 1) < cfg.budget
  {
    var n := |cfg.ops|;
    assert IsShuffle(cfg.order(d), n);
    QueueSize(cfg, seed, beam, cfg.order(d));
    MulMonotone(n, |beam|, Power(n, d));
    PowerGrows(n, d + 1, cfg.maxDepth);
    ChainsGrow(n, d + 1, cfg.maxDepth);
  }

  /** A level that ends without a bypass was not cut, and hands all its chains on. */
  lemma LevelPasses(
    cfg: Config, seed: AttackSeed, lv: Leveller, pick: Picker, beam: seq<BeamEntry>, d: nat, asked: seq<Query>, chain: seq<nat>)
    requires Drives(cfg, seed, lv, pick) && cfg.Valid() && Roomy(cfg) && |cfg.ops| >= 1 && d < cfg.maxDepth
    requires Covers(cfg, seed, beam, d) && |beam| <= Power(|cfg.ops|, d) && |asked| <= Chains(|cfg.ops|, d)
    requires d < |chain| && Follow(cfg, seed.content, chain).Some?
    requires !EndsInBypass(lv(beam, d, |asked|))
    ensures var level := lv(beam, d, |asked|);
            && level != [] && |asked + level| <= Chains(|cfg.ops|, d + 1) < cfg.budget
            && Covers(cfg, seed, pick(level), d + 1) && |pick(level)| <= Power(|cfg.ops|, d + 1)
  {
    var level := lv(beam, d, |asked|);
    assert LevelsAs(lv, cfg, seed, beam, d, |asked|);
    LevelFits(cfg, seed, beam, d, |asked|);
    WholeLevel(Queue(cfg, seed, beam, cfg.order(d)), cfg.budget - |asked|, level);
    FollowPrefix(cfg, seed.content, chain, d + 1);
    ChainIsQueued(cfg, seed, beam, d, chain[..d + 1]);
    Passes(cfg, seed, pick, beam, d, level);
  }

  lemma Passes(cfg: Config, seed: AttackSeed, pick: Picker, beam: seq<BeamEntry>, d: nat, level: seq<Query>)
    requires cfg.Valid() && Covers(cfg, seed, beam, d) && forall l :: PicksAs(pick, cfg, l)
    requires level == Queue(cfg, seed, beam, cfg.order(d)) && |level| <= cfg.beamWidth
    ensures Covers(cfg, seed, pick(level), d + 1) && |pick(level)| <= |level|
  {
    CoversNext(cfg, seed, beam, d);
    NextSize(cfg, level);
    assert PicksAs(pick, cfg, level);
  }

  /** A winning chain one operator longer than the beam's ends this level in a bypass. */
  lemma LastLevelHits(cfg: Config, seed: AttackSeed, lv: Leveller, beam: seq<BeamEntry>, d: nat, spent: nat, chain: seq<nat>)
    requires Levels(cfg, seed, lv) && cfg.Valid() && Roomy(cfg) && |cfg.ops| >= 1 && d < cfg.maxDepth
    requires Covers(cfg, seed, beam, d) && |beam| <= Power(|cfg.ops|, d) && spent <= Chains(|cfg.ops|, d)
    requires Wins(cfg, seed, chain) && |chain| == d + 1
    ensures EndsInBypass(lv(beam, d, spent))
  {
    assert LevelsAs(lv, cfg, seed, beam, d, spent);
    LevelFits(cfg, seed, beam, d, spent);
    ChainIsQueued(cfg, seed, beam, d, chain);
    BypassEndsLevel(Queue(cfg, seed, beam, cfg.order(d)), cfg.budget - spent, lv(beam, d, spent), QueryOf(cfg, seed, chain));
  }

  lemma {:induction false} SearchFromFinds(
    cfg: Config, seed: AttackSeed, lv: Leveller, pick: Picker, beam: seq<BeamEntry>, d: nat, asked: seq<Query>, chain: seq<nat>)
    requires Drives(cfg, seed, lv, pick) && cfg.Valid() && Roomy(cfg) && |cfg.ops| >= 1
    requires Covers(cfg, seed, beam, d) && |beam| <= Power(|cfg.ops|, d) && |asked| <= Chains(|cfg.ops|, d)
    requires Wins(cfg, seed, chain) && d < |chain| <= cfg.maxDepth
    ensures EndsInBypass(SearchFrom(lv, pick, cfg.budget, cfg.maxDepth, beam, d, asked))
    decreases cfg.maxDepth - d
  {
    var level := lv(beam, d, |asked|);
    if d + 1 == |chain| {
      LastLevelHits(cfg, seed, lv, beam, d, |asked|, chain);
    }
    if EndsInBypass(level) {
      EndsWith(asked, level);
    } else {
      LevelPasses(cfg, seed, lv, pick, beam, d, asked, chain);
      SearchFromFinds(cfg, seed, lv, pick, pick(level), d + 1, asked + level, chain);
    }
  }

  lemma EndsWith(asked: seq<Query>, level: seq<Query>)
    requires EndsInBypass(level)
    ensures EndsInBypass(asked + level)
  {
    assert (asked + level)[|asked + level| - 1] == level[|level| - 1];
  }

  lemma WholeLevel(q: seq<Query>, room: int, level: seq<Query>)
    requires IsCut(q, room, level) && !EndsInBypass(level) && |q| <= room
    ensures level == q && NoBypass(level)
  {
    assert level == q[..|level|];
  }

  /** A queue that fits the budget and holds a bypass is cut at one. */
  lemma BypassEndsLevel(q: seq<Query>, room: int, level: seq<Query>, hit: Query)
    requires IsCut(q, room, level) && |q| <= room && hit in q && IsBypass(hit.result)
    ensures EndsInBypass(level)
  {
    var i :| 0 <= i < |q| && q[i] == hit;
    assert level == q[..|level|];
    assert i < |level| - 1 ==> level[i] == hit;
  }

  /** Completeness in depth: with a width and a budget that cut nothing, every chain of at most
      maxDepth operators, each changing the content, that ends in a permitted mutation makes the
      search end in a bypass, under every shuffle. */
  lemma DeepBypassFound(cfg: Config, seed: AttackSeed, chain: seq<nat>, r: AttackResult)
    requires cfg.Valid() && Roomy(cfg) && Wins(cfg, seed, chain) && |chain| <= cfg.maxDepth
    requires Reports(cfg, seed, Search(cfg, seed), r)
    ensures r.bypassed
  {
    var first := FirstQuery(cfg, seed);
    if chain != [] && !IsBypass(first.result) {
      FollowPrefix(cfg, seed.content, chain, 1);
      assert chain[..1][..0] == [];
      SeedIsCovered(cfg, seed);
      var lv, pick := Driven(cfg, seed);
      SearchFromFinds(cfg, seed, lv, pick, [(seed.content, [])], 0, [first], chain);
    }
    EndMeansBypassed(cfg, seed, Search(cfg, seed), r);
  }

  /** One operator needs no more than a budget above the operator count, whatever the width. */
  lemma OneStepFound(cfg: Config, seed: AttackSeed, i: nat, r: AttackResult)
    requires cfg.Valid() && cfg.maxDepth >= 1 && cfg.budget > |cfg.ops| && Wins(cfg, seed, [i])
    requires Reports(cfg, seed, Search(cfg, seed), r)
    ensures r.bypassed
  {
    var first := FirstQuery(cfg, seed);
    if !IsBypass(first.result) {
      var beam: seq<BeamEntry> := [(seed.content, [])];
      var q, room := Queue(cfg, seed, beam, cfg.order(0)), cfg.budget - 1;
      SeedIsCovered(cfg, seed);
      ChainIsQueued(cfg, seed, beam, 0, [i]);
      assert IsShuffle(cfg.order(0), |cfg.ops|);
      QueueSize(cfg, seed, beam, cfg.order(0));
      var lv, pick := Driven(cfg, seed);
      var level := lv(beam, 0, 1);
      assert LevelsAs(lv, cfg, seed, beam, 0, 1);
      BypassEndsLevel(q, room, level, QueryOf(cfg, seed, [i]));
      EndsWith([first], level);
    }
    EndMeansBypassed(cfg, seed, Search(cfg, seed), r);
  }

  lemma SeedIsCovered(cfg: Config, seed: AttackSeed)
    ensures Covers(cfg, seed, [(seed.content, [])], 0)
  {
  }

  lemma EndMeansBypassed(cfg: Config, seed: AttackSeed, asked: seq<Query>, r: AttackResult)
    requires Reports(cfg, seed, asked, r) && EndsInBypass(asked)
    ensures r.bypassed
  {
  }
}
