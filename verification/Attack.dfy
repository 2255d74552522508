/**
 The budgeted beam-search attacker and the recorder that turns its queries into a breach
 stream.

 The scorer and the mutation operators are arbitrary functions; an operator that raises
 yields None. The shuffle of each depth is an arbitrary permutation of the operator table.
 */
module Attack {
  import opened Wrappers

  datatype Verdict = FORBID | ABSTAIN | PERMIT

  datatype ScoreResult = ScoreResult(verdict: Verdict, finalScore: real)

  type Metadata = Option<map<string, string>>

  type Scorer = (string, Metadata) -> ScoreResult

  datatype Operator = Operator(name: string, apply: string -> Option<string>)

  datatype AttackSeed = AttackSeed(id: string, content: string, metadata: Metadata, defenseClass: string)

  datatype AttackResult = AttackResult(
    seedId: string, defenseClass: string, staticVerdict: Verdict, bypassed: bool,
    bestVerdict: Verdict, bestObjective: real, queriesUsed: nat, mutationChain: seq<string>)

  /** One scored candidate: its content, the operator names that produced it, the result. */
  datatype Query = Query(content: string, chain: seq<string>, result: ScoreResult)

  datatype Config = Config(
    scorer: Scorer, budget: int, beamWidth: int, maxDepth: int,
    ops: seq<Operator>, order: nat -> seq<nat>)
  {
    /** Operator names are distinct and every depth visits the table in some order. */
    ghost predicate Valid() {
      && (forall i, j :: 0 <= i < j < |ops| ==> ops[i].name != ops[j].name)
      && (forall d: nat :: IsShuffle(order(d), |ops|))
    }
  }

  ghost predicate IsShuffle(p: seq<nat>, n: nat) {
    && |p| == n
    && (forall k :: 0 <= k < |p| ==> p[k] < n)
    && (forall i: nat :: i < n ==> i in p)
  }

  // ----- objective ----------------------------------------------------------------------

  function Rank(v: Verdict): real {
    match v
    case FORBID => 0.0
    case ABSTAIN => 1.0
    case PERMIT => 2.0
  }

  function Objective(r: ScoreResult): real { Rank(r.verdict) + (1.0 - r.finalScore) * 0.5 }

  predicate IsBypass(r: ScoreResult) { r.verdict == PERMIT }

  predicate InRange(r: ScoreResult, lo: real, hi: real) { lo <= r.finalScore <= hi }

  /** With scores less than 2 apart, as all in [0,1] are, the objective orders by verdict first,
      then by lower score. */
  lemma ObjectiveOrdersByVerdict(a: ScoreResult, b: ScoreResult, lo: real, hi: real)
    requires InRange(a, lo, hi) && InRange(b, lo, hi) && hi - lo < 2.0
    ensures Objective(a) < Objective(b)
       <==> Rank(a.verdict) < Rank(b.verdict) || (a.verdict == b.verdict && a.finalScore > b.finalScore)
  {
  }

  /** Every better verdict has the larger objective, over all scores of a range. */
  ghost predicate OrdersByVerdict(lo: real, hi: real) {
    forall a: ScoreResult, b: ScoreResult ::
      InRange(a, lo, hi) && InRange(b, lo, hi) && Rank(a.verdict) < Rank(b.verdict) ==> Objective(a) < Objective(b)
  }

  /** The exact condition: a range of scores orders by verdict if and only if it is narrower
      than 2. At that width a forbidden candidate with the lowest score ties an abstained one
      with the highest. */
  lemma OrdersByVerdictIffNarrow(lo: real, hi: real)
    requires lo <= hi
    ensures OrdersByVerdict(lo, hi) <==> hi - lo < 2.0
  {
    var low, high := ScoreResult(FORBID, lo), ScoreResult(ABSTAIN, hi);
    assert InRange(low, lo, hi) && InRange(high, lo, hi) && Rank(low.verdict) < Rank(high.verdict);
    assert Objective(low) < Objective(high) <==> hi - lo < 2.0;
  }

  /** And it does fail beyond: a forbidden candidate can outrank a permitted one. */
  lemma WideScoresMisorder()
    ensures Objective(ScoreResult(FORBID, -5.0)) > Objective(ScoreResult(PERMIT, 0.0))
  {
  }

  // ----- replaying a mutation chain -----------------------------------------------------

  function ApplyNamed(ops: seq<Operator>, name: string, content: string): Option<string> {
    if ops == [] then None
    else if ops[0].name == name then ops[0].apply(content)
    else ApplyNamed(ops[1..], name, content)
  }

  function Replay(ops: seq<Operator>, chain: seq<string>, content: string): Option<string> {
    if chain == [] then Some(content)
    else
      match Replay(ops, chain[..|chain| - 1], content)
      case None => None
      case Some(c) => ApplyNamed(ops, chain[|chain| - 1], c)
  }

  lemma {:induction false} ApplyNamedFinds(ops: seq<Operator>, i: nat, content: string)
    requires i < |ops| && forall a, b :: 0 <= a < b < |ops| ==> ops[a].name != ops[b].name
    ensures ApplyNamed(ops, ops[i].name, content) == ops[i].apply(content)
  {
    if i > 0 {
      ApplyNamedFinds(ops[1..], i - 1, content);
    }
  }

  lemma ReplayExtends(cfg: Config, seed: AttackSeed, chain: seq<string>, content: string, i: nat)
    requires cfg.Valid() && i < |cfg.ops|
    requires Replay(cfg.ops, chain, seed.content) == Some(content)
    ensures Replay(cfg.ops, chain + [cfg.ops[i].name], seed.content) == cfg.ops[i].apply(content)
  {
    var longer := chain + [cfg.ops[i].name];
    assert longer[..|longer| - 1] == chain;
    ApplyNamedFinds(cfg.ops, i, content);
  }

  // ----- beam selection -----------------------------------------------------------------

  function Insert(q: Query, s: seq<Query>): seq<Query> {
    if s == [] || Objective(s[0].result) <= Objective(q.result) then [q] + s
    else [s[0]] + Insert(q, s[1..])
  }

  /** Stable sort by objective, best first. */
  function SortDesc(s: seq<Query>): seq<Query> {
    if s == [] then [] else Insert(s[0], SortDesc(s[1..]))
  }

  /** s[:k] with the source language's negative-bound rule. */
  function Take<T>(s: seq<T>, k: int): seq<T> {
    if k >= |s| then s else if k >= 0 then s[..k] else if |s| + k <= 0 then [] else s[..|s| + k]
  }

  ghost predicate Descending(s: seq<Query>) {
    forall i, j :: 0 <= i < j < |s| ==> Objective(s[i].result) >= Objective(s[j].result)
  }

  /** The candidates of one objective value, in order. */
  function OfObjective(s: seq<Query>, v: real): seq<Query> {
    if s == [] then []
    else (if Objective(s[0].result) == v then [s[0]] else []) + OfObjective(s[1..], v)
  }

  lemma {:induction false} InsertPermutes(q: Query, s: seq<Query>)
    ensures multiset(Insert(q, s)) == multiset([q]) + multiset(s)
  {
    if !(s == [] || Objective(s[0].result) <= Objective(q.result)) {
      InsertPermutes(q, s[1..]);
      assert s == [s[0]] + s[1..];
    }
  }

  lemma {:induction false} InsertDescends(q: Query, s: seq<Query>)
    requires Descending(s)
    ensures Descending(Insert(q, s))
  {
    if !(s == [] || Objective(s[0].result) <= Objective(q.result)) {
      var rest := Insert(q, s[1..]);
      InsertDescends(q, s[1..]);
      InsertPermutes(q, s[1..]);
      forall i | 0 <= i < |rest| ensures Objective(s[0].result) >= Objective(rest[i].result) {
        assert rest[i] in multiset(rest);
        assert rest[i] in [q] || rest[i] in s[1..];
      }
    }
  }

  lemma {:induction false} InsertIsStable(q: Query, s: seq<Query>, v: real)
    ensures OfObjective(Insert(q, s), v) == OfObjective([q] + s, v)
  {
    if !(s == [] || Objective(s[0].result) <= Objective(q.result)) {
      InsertIsStable(q, s[1..], v);
      assert Insert(q, s)[1..] == Insert(q, s[1..]);
      assert ([q] + s)[1..] == s && ([q] + s[1..])[1..] == s[1..];
    }
  }

  /** The sort permutes, orders best first, and keeps ties in query order. */
  lemma {:induction false} SortDescCorrect(s: seq<Query>, v: real)
    ensures Descending(SortDesc(s)) && multiset(SortDesc(s)) == multiset(s)
    ensures OfObjective(SortDesc(s), v) == OfObjective(s, v)
  {
    if s != [] {
      SortDescCorrect(s[1..], v);
      var rest := SortDesc(s[1..]);
      InsertPermutes(s[0], rest);
      InsertDescends(s[0], rest);
      InsertIsStable(s[0], rest, v);
      assert s == [s[0]] + s[1..];
      assert ([s[0]] + rest)[1..] == rest;
    }
  }

  /** Nothing the beam drops beats anything it keeps. */
  lemma BeamKeepsBest(s: seq<Query>, width: int, i: nat, j: nat)
    requires width >= 0 && i < |Take(SortDesc(s), width)| <= j < |SortDesc(s)|
    ensures Objective(Take(SortDesc(s), width)[i].result) >= Objective(SortDesc(s)[j].result)
  {
    SortDescCorrect(s, 0.0);
  }

  // ----- what a finished search reports -------------------------------------------------

  /** Every logged query is the scorer's answer on a content its chain reproduces. */
  ghost predicate Logged(cfg: Config, seed: AttackSeed, asked: seq<Query>) {
    forall q :: q in asked ==> Faithful(cfg, seed, q)
  }

  ghost predicate Faithful(cfg: Config, seed: AttackSeed, q: Query) {
    && q.result == cfg.scorer(q.content, seed.metadata)
    && Replay(cfg.ops, q.chain, seed.content) == Some(q.content)
  }

  /** j is the earliest query attaining the maximal objective. */
  ghost predicate IsBest(asked: seq<Query>, j: nat) {
    && j < |asked|
    && (forall i :: 0 <= i < j ==> Objective(asked[i].result) < Objective(asked[j].result))
    && (forall i :: j <= i < |asked| ==> Objective(asked[i].result) <= Objective(asked[j].result))
  }

  ghost predicate NoBypass(asked: seq<Query>) {
    forall i :: 0 <= i < |asked| ==> !IsBypass(asked[i].result)
  }

  function Max(a: int, b: int): int { if a < b then b else a }

  function ChainLabel(q: Query): seq<string> {
    if q.chain != [] then q.chain
    else if IsBypass(q.result) then ["<unmutated>"] else ["<no_improvement>"]
  }

  function ResultOf(seed: AttackSeed, first: ScoreResult, best: Query, queries: nat): AttackResult {
    AttackResult(seed.id, seed.defenseClass, first.verdict, IsBypass(best.result),
                 best.result.verdict, Objective(best.result), queries, ChainLabel(best))
  }

  /** A search whose queries were exactly `asked` may report r. */
  ghost predicate Reports(cfg: Config, seed: AttackSeed, asked: seq<Query>, r: AttackResult) {
    && 1 <= |asked| <= Max(1, cfg.budget)
    && asked[0].content == seed.content && asked[0].chain == []
    && Logged(cfg, seed, asked)
    && NoBypass(asked[..|asked| - 1])
    && exists j: nat :: j < |asked| && r == ResultOf(seed, asked[0].result, asked[j], |asked|)
                   && if r.bypassed then j == |asked| - 1 else NoBypass(asked) && IsBest(asked, j)
  }

  /** With scores in a range narrower than 2, the reported verdict is the best verdict of the
      whole search. */
  lemma ReportedVerdictIsBest(
    cfg: Config, seed: AttackSeed, asked: seq<Query>, r: AttackResult, i: nat, lo: real, hi: real)
    requires Reports(cfg, seed, asked, r) && i < |asked|
    requires hi - lo < 2.0 && forall q :: q in asked ==> InRange(q.result, lo, hi)
    ensures Rank(asked[i].result.verdict) <= Rank(r.bestVerdict)
    ensures r.bypassed <==> exists k :: 0 <= k < |asked| && IsBypass(asked[k].result)
  {
    var j: nat :| j < |asked| && r == ResultOf(seed, asked[0].result, asked[j], |asked|)
                  && if r.bypassed then j == |asked| - 1 else NoBypass(asked) && IsBest(asked, j);
    assert asked[i] in asked && asked[j] in asked;
    if !r.bypassed {
      ObjectiveOrdersByVerdict(asked[j].result, asked[i].result, lo, hi);
    }
  }

  /** A reported mutation chain, replayed on the seed, reproduces the reported score. */
  lemma ChainReproducesScore(cfg: Config, seed: AttackSeed, asked: seq<Query>, r: AttackResult)
    requires Reports(cfg, seed, asked, r)
    requires r.mutationChain != ["<unmutated>"] && r.mutationChain != ["<no_improvement>"]
    ensures var c := Replay(cfg.ops, r.mutationChain, seed.content);
            && c.Some?
            && cfg.scorer(c.value, seed.metadata).verdict == r.bestVerdict
            && Objective(cfg.scorer(c.value, seed.metadata)) == r.bestObjective
  {
    var j: nat :| j < |asked| && r == ResultOf(seed, asked[0].result, asked[j], |asked|)
                  && if r.bypassed then j == |asked| - 1 else NoBypass(asked) && IsBest(asked, j);
    assert asked[j] in asked;
    assert Faithful(cfg, seed, asked[j]);
  }

  // ----- the search ---------------------------------------------------------------------

  function Indicators(asked: seq<Query>): (r: seq<bool>)
    ensures |r| == |asked| && forall i :: 0 <= i < |r| ==> r[i] == IsBypass(asked[i].result)
  {
    seq(|asked|, i requires 0 <= i < |asked| => IsBypass(asked[i].result))
  }

  /** Scorer wrapper that appends one breach indicator per call. */
  class BreachStreamRecorder {
    const inner: Scorer
    var stream: seq<bool>

    constructor (inner: Scorer)
      ensures this.inner == inner && stream == []
    {
      this.inner, stream := inner, [];
    }

    method Score(content: string, metadata: Metadata) returns (r: ScoreResult)
      modifies this
      ensures r == inner(content, metadata)
      ensures stream == old(stream) + [IsBypass(r)]
    {
      r := inner(content, metadata);
      stream := stream + [IsBypass(r)];
    }
  }

  /** The search's working state between two queries: everything asked so far was refused,
      and best is the earliest maximum. */
  ghost predicate Searching(cfg: Config, seed: AttackSeed, asked: seq<Query>, best: Query) {
    && |asked| >= 1 && |asked| <= Max(1, cfg.budget)
    && asked[0].content == seed.content && asked[0].chain == []
    && Logged(cfg, seed, asked)
    && NoBypass(asked)
    && exists j: nat :: IsBest(asked, j) && best == asked[j]
  }

  lemma SearchingStep(cfg: Config, seed: AttackSeed, asked: seq<Query>, best: Query, q: Query)
    requires Searching(cfg, seed, asked, best) && |asked| < cfg.budget
    requires Faithful(cfg, seed, q) && !IsBypass(q.result)
    ensures Searching(cfg, seed, asked + [q], if Objective(q.result) > Objective(best.result) then q else best)
  {
    var all := asked + [q];
    var j: nat :| IsBest(asked, j) && best == asked[j];
    assert forall i :: 0 <= i < |asked| ==> all[i] == asked[i];
    if Objective(q.result) > Objective(best.result) {
      assert IsBest(all, |asked|) && all[|asked|] == q;
    } else {
      assert IsBest(all, j) && all[j] == best;
    }
  }

  lemma BypassReports(cfg: Config, seed: AttackSeed, asked: seq<Query>, best: Query, q: Query)
    requires Searching(cfg, seed, asked, best) && |asked| < cfg.budget
    requires Faithful(cfg, seed, q) && IsBypass(q.result)
    ensures Reports(cfg, seed, asked + [q], ResultOf(seed, asked[0].result, q, |asked| + 1))
  {
    var all := asked + [q];
    assert all[..|all| - 1] == asked && all[|asked|] == q && all[0] == asked[0];
  }

  lemma ExhaustionReports(cfg: Config, seed: AttackSeed, asked: seq<Query>, best: Query)
    requires Searching(cfg, seed, asked, best)
    ensures Reports(cfg, seed, asked, ResultOf(seed, asked[0].result, best, |asked|))
  {
    var j: nat :| IsBest(asked, j) && best == asked[j];
  }

  /** A beam entry is a content its chain reproduces. */
  ghost predicate Reproduces(cfg: Config, seed: AttackSeed, e: (string, seq<string>)) {
    Replay(cfg.ops, e.1, seed.content) == Some(e.0)
  }

  ghost predicate AllFaithful(cfg: Config, seed: AttackSeed, cands: seq<Query>) {
    forall c :: c in cands ==> Faithful(cfg, seed, c)
  }

  /** The recorder holds what it held before, then one indicator per query asked. */
  lemma IndicatorsPush(base: seq<bool>, asked: seq<Query>, q: Query)
    ensures base + Indicators(asked) + [IsBypass(q.result)] == base + Indicators(asked + [q])
  {
  }

  // ----- the queries a search makes -----------------------------------------------------

  /** A content to mutate, and the operator names that led to it. */
  type BeamEntry = (string, seq<string>)

  /** The query one operator gives on one entry: none when it raises or changes nothing. */
  function TryOne(cfg: Config, seed: AttackSeed, entry: BeamEntry, i: nat): seq<Query> {
    if i >= |cfg.ops| then []
    else
      match cfg.ops[i].apply(entry.0)
      case None => []
      case Some(m) =>
        if m == entry.0 then [] else [Query(m, entry.1 + [cfg.ops[i].name], cfg.scorer(m, seed.metadata))]
  }

  function Tries(cfg: Config, seed: AttackSeed, entry: BeamEntry, order: seq<nat>): seq<Query> {
    if order == [] then []
    else Tries(cfg, seed, entry, order[..|order| - 1]) + TryOne(cfg, seed, entry, order[|order| - 1])
  }

  /** The queries of one depth if nothing cuts it short. */
  function Queue(cfg: Config, seed: AttackSeed, beam: seq<BeamEntry>, order: seq<nat>): seq<Query> {
    if beam == [] then []
    else Queue(cfg, seed, beam[..|beam| - 1], order) + Tries(cfg, seed, beam[|beam| - 1], order)
  }

  /** As far as the budget and the first bypass let it go. */
  function Cut(q: seq<Query>, room: int): seq<Query> { q[..CutAt(q, room, 0)] }

  function CutAt(q: seq<Query>, room: int, i: nat): (n: nat)
    requires i <= |q|
    ensures i <= n <= |q|
    decreases |q| - i
  {
    if i == |q| || i >= room then i else if IsBypass(q[i].result) then i + 1 else CutAt(q, room, i + 1)
  }

  predicate EndsInBypass(log: seq<Query>) { log != [] && IsBypass(log[|log| - 1].result) }

  function LevelLog(cfg: Config, seed: AttackSeed, beam: seq<BeamEntry>, depth: nat, spent: nat): seq<Query> {
    Cut(Queue(cfg, seed, beam, cfg.order(depth)), cfg.budget - spent)
  }

  /** The best candidates of a depth are mutated at the next. */
  function NextBeam(cfg: Config, level: seq<Query>): (beam: seq<BeamEntry>)
  {
    var kept := Take(SortDesc(level), cfg.beamWidth);
    seq(|kept|, i requires 0 <= i < |kept| => (kept[i].content, kept[i].chain))
  }

  /** The log of one level, given its beam, its depth and what was spent before it; and the beam
      a level hands on. */
  type Leveller = (seq<BeamEntry>, nat, nat) -> seq<Query>
  type Picker = seq<Query> -> seq<BeamEntry>

  function LevelOf(cfg: Config, seed: AttackSeed): Leveller {
    (beam: seq<BeamEntry>, depth: nat, spent: nat) => LevelLog(cfg, seed, beam, depth, spent)
  }

  function PickOf(cfg: Config): Picker { (level: seq<Query>) => NextBeam(cfg, level) }

  /** The whole log from a depth on: level by level, until a bypass, a level without candidates,
      the end of the budget or the last depth. */
  function SearchFrom(
    lv: Leveller, pick: Picker, budget: int, maxDepth: int, beam: seq<BeamEntry>, depth: nat, asked: seq<Query>): seq<Query>
    decreases maxDepth - depth
  {
    if depth >= maxDepth then asked
    else
      var level := lv(beam, depth, |asked|);
      var all := asked + level;
      if EndsInBypass(level) || level == [] || |all| >= budget then all
      else SearchFrom(lv, pick, budget, maxDepth, pick(level), depth + 1, all)
  }

  function FirstQuery(cfg: Config, seed: AttackSeed): Query {
    Query(seed.content, [], cfg.scorer(seed.content, seed.metadata))
  }

  function Search(cfg: Config, seed: AttackSeed): seq<Query> {
    var first := FirstQuery(cfg, seed);
    if IsBypass(first.result) then [first]
    else SearchFrom(LevelOf(cfg, seed), PickOf(cfg), cfg.budget, cfg.maxDepth, [(seed.content, [])], 0, [first])
  }

  /** What a log cut by budget and bypass is: a prefix of its queue, within the budget, whose
      bypasses can only be last, and shorter than the queue only because of either. */
  ghost predicate IsCut(q: seq<Query>, room: int, x: seq<Query>) {
    && x <= q && |x| <= Max(0, room)
    && (forall i :: 0 <= i < |x| - 1 ==> !IsBypass(x[i].result))
    && (EndsInBypass(x) || |x| == |q| || |x| >= room)
  }

  lemma {:induction false} CutAtIsCut(q: seq<Query>, room: int, i: nat)
    requires i <= |q| && i <= Max(0, room) && forall j :: 0 <= j < i ==> !IsBypass(q[j].result)
    ensures IsCut(q, room, q[..CutAt(q, room, i)])
    decreases |q| - i
  {
    if i < |q| && i < room && !IsBypass(q[i].result) {
      CutAtIsCut(q, room, i + 1);
    }
  }

  lemma CutIsCut(q: seq<Query>, room: int)
    ensures IsCut(q, room, Cut(q, room))
  {
    CutAtIsCut(q, room, 0);
  }

  lemma CutUnique(q: seq<Query>, room: int, x: seq<Query>, y: seq<Query>)
    requires IsCut(q, room, x) && IsCut(q, room, y)
    ensures x == y
  {
    assert forall i :: 0 <= i < |x| && i < |y| ==> x[i] == y[i];
  }

  lemma EndsAfter(a: seq<Query>, b: seq<Query>)
    requires !EndsInBypass(a)
    ensures EndsInBypass(a + b) <==> EndsInBypass(b)
  {
    if b == [] {
      assert a + b == a;
    } else {
      assert (a + b)[|a + b| - 1] == b[|b| - 1];
    }
  }

  lemma Assoc(a: seq<Query>, b: seq<Query>, c: seq<Query>)
    ensures a + b + c == a + (b + c)
  {
  }

  /** Cutting goes piece by piece. */
  lemma CutConcat(a: seq<Query>, b: seq<Query>, room: int, x: seq<Query>, y: seq<Query>)
    requires IsCut(a, room, x) && !EndsInBypass(x) && IsCut(b, room - |x|, y)
    ensures IsCut(a + b, room, x + y)
  {
    EndsAfter(x, y);
    if |x| < |a| {
      assert y == [] && x + y == x;
    } else {
      assert x == a;
    }
  }

  /** Once a prefix of the queue was cut short, the rest of it does not matter. */
  lemma CutSettled(a: seq<Query>, q: seq<Query>, room: int, x: seq<Query>)
    requires a <= q && IsCut(a, room, x) && (EndsInBypass(x) || |x| >= room)
    ensures IsCut(q, room, x)
  {
  }

  lemma {:induction false} TriesPrefix(cfg: Config, seed: AttackSeed, entry: BeamEntry, order: seq<nat>, k: nat)
    requires k <= |order|
    ensures Tries(cfg, seed, entry, order[..k]) <= Tries(cfg, seed, entry, order)
    decreases |order|
  {
    if k < |order| {
      var most := order[..|order| - 1];
      assert most[..k] == order[..k];
      TriesPrefix(cfg, seed, entry, most, k);
    } else {
      assert order[..k] == order;
    }
  }

  lemma {:induction false} QueuePrefix(cfg: Config, seed: AttackSeed, beam: seq<BeamEntry>, order: seq<nat>, k: nat)
    requires k <= |beam|
    ensures Queue(cfg, seed, beam[..k], order) <= Queue(cfg, seed, beam, order)
    decreases |beam|
  {
    if k < |beam| {
      var most := beam[..|beam| - 1];
      assert most[..k] == beam[..k];
      QueuePrefix(cfg, seed, most, order, k);
    } else {
      assert beam[..k] == beam;
    }
  }

  class AdaptiveAttacker {
    const cfg: Config
    const recorder: BreachStreamRecorder
    var queries: nat

    constructor (cfg: Config, recorder: BreachStreamRecorder)
      ensures this.cfg == cfg && this.recorder == recorder
    {
      this.cfg, this.recorder, queries := cfg, recorder, 0;
    }

    method Score(content: string, metadata: Metadata) returns (r: ScoreResult)
      requires recorder.inner == cfg.scorer
      modifies this, recorder
      ensures r == cfg.scorer(content, metadata)
      ensures queries == old(queries) + 1 && recorder.stream == old(recorder.stream) + [IsBypass(r)]
    {
      queries := queries + 1;
      r := recorder.Score(content, metadata);
    }

    /** Try one operator on one beam entry, while there is budget left. */
    method TryOperator(seed: AttackSeed, entry: BeamEntry, i: nat,
                       best0: Query, cands0: seq<Query>, ghost asked0: seq<Query>, ghost base: seq<bool>)
      returns (hit: Option<Query>, best: Query, cands: seq<Query>, ghost asked: seq<Query>)
      requires cfg.Valid() && recorder.inner == cfg.scorer && i < |cfg.ops| && queries < cfg.budget
      requires queries == |asked0| && Searching(cfg, seed, asked0, best0) && Reproduces(cfg, seed, entry)
      requires AllFaithful(cfg, seed, cands0) && recorder.stream == base + Indicators(asked0)
      modifies this, recorder
      ensures asked == asked0 + TryOne(cfg, seed, entry, i) && cands == cands0 + TryOne(cfg, seed, entry, i)
      ensures queries == |asked| && recorder.stream == base + Indicators(asked)
      ensures hit.Some? <==> EndsInBypass(TryOne(cfg, seed, entry, i))
      ensures Outcome(cfg, seed, asked, hit, best, cands)
    {
      hit, best, cands, asked := None, best0, cands0, asked0;
      var op := cfg.ops[i];
      var mutated := op.apply(entry.0);
      if mutated.None? || mutated.value == entry.0 {
        assert TryOne(cfg, seed, entry, i) == [];
        return;
      }
      ReplayExtends(cfg, seed, entry.1, entry.0, i);
      var res := Score(mutated.value, seed.metadata);
      var q := Query(mutated.value, entry.1 + [op.name], res);
      assert TryOne(cfg, seed, entry, i) == [q];
      cands := cands0 + [q];
      asked := asked0 + [q];
      IndicatorsPush(base, asked0, q);
      if IsBypass(res) {
        BypassReports(cfg, seed, asked0, best0, q);
        hit := Some(q);
        return;
      }
      SearchingStep(cfg, seed, asked0, best0, q);
      if Objective(res) > Objective(best.result) {
        best := q;
      }
    }

    /** Try every operator, in the depth's order, on one beam entry. */
    method Expand(seed: AttackSeed, entry: BeamEntry, order: seq<nat>,
                  best0: Query, cands0: seq<Query>, ghost asked0: seq<Query>, ghost base: seq<bool>)
      returns (hit: Option<Query>, best: Query, cands: seq<Query>, ghost asked: seq<Query>, ghost made: seq<Query>)
      requires cfg.Valid() && recorder.inner == cfg.scorer && IsShuffle(order, |cfg.ops|)
      requires queries == |asked0| && Searching(cfg, seed, asked0, best0) && Reproduces(cfg, seed, entry)
      requires AllFaithful(cfg, seed, cands0) && recorder.stream == base + Indicators(asked0)
      modifies this, recorder
      ensures IsCut(Tries(cfg, seed, entry, order), cfg.budget - |asked0|, made)
      ensures asked == asked0 + made && cands == cands0 + made && (hit.Some? <==> EndsInBypass(made))
      ensures queries == |asked| && recorder.stream == base + Indicators(asked)
      ensures Outcome(cfg, seed, asked, hit, best, cands)
    {
      hit, best, cands, asked := None, best0, cands0, asked0;
      ghost var room := cfg.budget - |asked0|;
      made := [];
      for k := 0 to |order|
        invariant hit.None? && TriedUpTo(cfg, seed, entry, order, k, room, made)
        invariant asked == asked0 + made && cands == cands0 + made
        invariant queries == |asked| && recorder.stream == base + Indicators(asked)
        invariant Outcome(cfg, seed, asked, None, best, cands)
      {
        if queries >= cfg.budget {
          TriesStop(cfg, seed, entry, order, k, room, made);
          return;
        }
        ghost var one := TryOne(cfg, seed, entry, order[k]);
        TriesStep(cfg, seed, entry, order, k, room, made);
        Assoc(asked0, made, one);
        Assoc(cands0, made, one);
        made := made + one;
        hit, best, cands, asked := TryOperator(seed, entry, order[k], best, cands, asked, base);
        if hit.Some? {
          return;
        }
      }
      assert order[..|order|] == order;
    }

    /** Expand each beam entry until a bypass, or until the budget runs out. */
    method ExpandAll(seed: AttackSeed, beam: seq<BeamEntry>, order: seq<nat>,
                     best0: Query, ghost asked0: seq<Query>, ghost base: seq<bool>)
      returns (hit: Option<Query>, best: Query, cands: seq<Query>, ghost asked: seq<Query>)
      requires cfg.Valid() && recorder.inner == cfg.scorer && IsShuffle(order, |cfg.ops|)
      requires queries == |asked0| && Searching(cfg, seed, asked0, best0)
      requires forall e :: e in beam ==> Reproduces(cfg, seed, e)
      requires recorder.stream == base + Indicators(asked0)
      modifies this, recorder
      ensures IsCut(Queue(cfg, seed, beam, order), cfg.budget - |asked0|, cands) && asked == asked0 + cands
      ensures hit.Some? <==> EndsInBypass(cands)
      ensures queries == |asked| && recorder.stream == base + Indicators(asked)
      ensures Outcome(cfg, seed, asked, hit, best, cands)
    {
      hit, best, cands, asked := None, best0, [], asked0;
      ghost var room := cfg.budget - |asked0|;
      for b := 0 to |beam|
        invariant hit.None? && QueuedUpTo(cfg, seed, beam, order, b, room, cands)
        invariant asked == asked0 + cands
        invariant queries == |asked| && recorder.stream == base + Indicators(asked)
        invariant Outcome(cfg, seed, asked, None, best, cands)
      {
        ghost var had, was := cands, asked;
        ghost var more;
        hit, best, cands, asked, more := Expand(seed, beam[b], order, best, cands, asked, base);
        assert cfg.budget - |was| == room - |had|;
        QueueStep(cfg, seed, beam, order, b, room, had, more);
        Assoc(asked0, had, more);
        if hit.Some? || queries >= cfg.budget {
          return;
        }
      }
      assert beam[..|beam|] == beam;
    }

    /** One depth, in that depth's operator order. */
    method Level(seed: AttackSeed, beam: seq<BeamEntry>, depth: nat,
                 best0: Query, ghost asked0: seq<Query>, ghost base: seq<bool>, ghost lv: Leveller)
      returns (hit: Option<Query>, best: Query, cands: seq<Query>, ghost asked: seq<Query>)
      requires cfg.Valid() && recorder.inner == cfg.scorer && Levels(cfg, seed, lv)
      requires queries == |asked0| && Searching(cfg, seed, asked0, best0)
      requires forall e :: e in beam ==> Reproduces(cfg, seed, e)
      requires recorder.stream == base + Indicators(asked0)
      modifies this, recorder
      ensures cands == lv(beam, depth, |asked0|) && asked == asked0 + cands
      ensures hit.Some? <==> EndsInBypass(cands)
      ensures queries == |asked| && recorder.stream == base + Indicators(asked)
      ensures Outcome(cfg, seed, asked, hit, best, cands)
    {
      hit, best, cands, asked := ExpandAll(seed, beam, cfg.order(depth), best0, asked0, base);
      LevelIs(cfg, seed, lv, beam, depth, |asked0|, cands);
    }

    /** The depth loop, from the first refused query on. */
    method Deepen(seed: AttackSeed, first: Query, ghost lv: Leveller, ghost pick: Picker, ghost base: seq<bool>)
      returns (r: AttackResult, ghost asked: seq<Query>)
      requires cfg.Valid() && recorder.inner == cfg.scorer && queries == 1
      requires Drives(cfg, seed, lv, pick)
      requires Searching(cfg, seed, [first], first) && recorder.stream == base + Indicators([first])
      modifies this, recorder
      ensures asked == SearchFrom(lv, pick, cfg.budget, cfg.maxDepth, [(seed.content, [])], 0, [first])
      ensures Reports(cfg, seed, asked, r) && recorder.stream == base + Indicators(asked)
    {
      var best := first;
      asked := [first];
      var beam: seq<BeamEntry> := [(seed.content, [])];
      ghost var whole := SearchFrom(lv, pick, cfg.budget, cfg.maxDepth, beam, 0, asked);
      var depth := 0;
      while depth < cfg.maxDepth
        invariant 0 <= depth && queries == |asked|
        invariant recorder.stream == base + Indicators(asked)
        invariant Searching(cfg, seed, asked, best) && asked[0] == first
        invariant forall e :: e in beam ==> Reproduces(cfg, seed, e)
        invariant whole == SearchFrom(lv, pick, cfg.budget, cfg.maxDepth, beam, depth, asked)
      {
        var hit, cands;
        hit, best, cands, asked := Level(seed, beam, depth, best, asked, base, lv);
        if hit.Some? {
          r := ResultOf(seed, first.result, hit.value, queries);
          return;
        }
        if cands == [] {
          break;
        }
        beam := Pick(seed, cands, pick);
        depth := depth + 1;
        if queries >= cfg.budget {
          break;
        }
      }
      ExhaustionReports(cfg, seed, asked, best);
      r := ResultOf(seed, first.result, best, queries);
    }

    /** The best candidates of a level become the next beam. */
    method Pick(seed: AttackSeed, cands: seq<Query>, ghost pick: Picker) returns (beam: seq<BeamEntry>)
      requires AllFaithful(cfg, seed, cands) && forall level :: PicksAs(pick, cfg, level)
      ensures beam == pick(cands) && forall e :: e in beam ==> Reproduces(cfg, seed, e)
    {
      NextBeamReproduces(cfg, seed, cands);
      assert PicksAs(pick, cfg, cands);
      beam := NextBeam(cfg, cands);
    }

    /** Attack one seed, returning the report and, for the proof, the queries made: exactly those
        of the specified search. */
    method Attack(seed: AttackSeed) returns (r: AttackResult, ghost asked: seq<Query>)
      requires cfg.Valid() && recorder.inner == cfg.scorer
      modifies this, recorder
      ensures asked == Search(cfg, seed) && Reports(cfg, seed, asked, r)
      ensures recorder.stream == old(recorder.stream) + Indicators(asked)
    {
      queries := 0;
      var result := Score(seed.content, seed.metadata);
      var first := Query(seed.content, [], result);
      assert first == FirstQuery(cfg, seed) && Faithful(cfg, seed, first);
      if IsBypass(result) {
        asked := [first];
        r := ResultOf(seed, result, first, queries);
        return;
      }
      assert IsBest([first], 0);
      ghost var lv, pick := Driven(cfg, seed);
      r, asked := Deepen(seed, first, lv, pick, old(recorder.stream));
    }
  }

  /** Where an expansion leaves the search: still looking, or done with a bypass to report. */
  ghost predicate Outcome(cfg: Config, seed: AttackSeed, asked: seq<Query>, hit: Option<Query>, best: Query, cands: seq<Query>) {
    match hit
    case None => Searching(cfg, seed, asked, best) && AllFaithful(cfg, seed, cands)
    case Some(q) =>
      |asked| > 0 && IsBypass(q.result) && Reports(cfg, seed, asked, ResultOf(seed, asked[0].result, q, |asked|))
  }

  /** What the operator loop has asked after k operators. */
  ghost predicate TriedUpTo(cfg: Config, seed: AttackSeed, entry: BeamEntry, order: seq<nat>, k: nat, room: int, made: seq<Query>) {
    k <= |order| && IsCut(Tries(cfg, seed, entry, order[..k]), room, made) && !EndsInBypass(made)
  }

  lemma TriesStop(cfg: Config, seed: AttackSeed, entry: BeamEntry, order: seq<nat>, k: nat, room: int, made: seq<Query>)
    requires TriedUpTo(cfg, seed, entry, order, k, room, made) && |made| >= room
    ensures IsCut(Tries(cfg, seed, entry, order), room, made)
  {
    TriesPrefix(cfg, seed, entry, order, k);
    CutSettled(Tries(cfg, seed, entry, order[..k]), Tries(cfg, seed, entry, order), room, made);
  }

  /** One operator more: either it ends the loop's log for good, or the log is one step longer. */
  lemma TriesStep(cfg: Config, seed: AttackSeed, entry: BeamEntry, order: seq<nat>, k: nat, room: int, made: seq<Query>)
    requires TriedUpTo(cfg, seed, entry, order, k, room, made) && k < |order| && |made| < room
    ensures var one := TryOne(cfg, seed, entry, order[k]);
            && (EndsInBypass(made + one) <==> EndsInBypass(one))
            && if EndsInBypass(one) then IsCut(Tries(cfg, seed, entry, order), room, made + one)
               else TriedUpTo(cfg, seed, entry, order, k + 1, room, made + one)
  {
    assert order[..k + 1][..k] == order[..k];
    var one := TryOne(cfg, seed, entry, order[k]);
    CutConcat(Tries(cfg, seed, entry, order[..k]), one, room, made, one);
    EndsAfter(made, one);
    if EndsInBypass(one) {
      TriesPrefix(cfg, seed, entry, order, k + 1);
      CutSettled(Tries(cfg, seed, entry, order[..k + 1]), Tries(cfg, seed, entry, order), room, made + one);
    }
  }

  /** What the beam loop has asked after b entries. */
  ghost predicate QueuedUpTo(cfg: Config, seed: AttackSeed, beam: seq<BeamEntry>, order: seq<nat>, b: nat, room: int, made: seq<Query>) {
    b <= |beam| && IsCut(Queue(cfg, seed, beam[..b], order), room, made) && !EndsInBypass(made)
  }

  lemma QueueStep(
    cfg: Config, seed: AttackSeed, beam: seq<BeamEntry>, order: seq<nat>, b: nat, room: int, made: seq<Query>, more: seq<Query>)
    requires QueuedUpTo(cfg, seed, beam, order, b, room, made) && b < |beam|
    requires IsCut(Tries(cfg, seed, beam[b], order), room - |made|, more)
    ensures EndsInBypass(made + more) <==> EndsInBypass(more)
    ensures EndsInBypass(more) || |made + more| >= room ==> IsCut(Queue(cfg, seed, beam, order), room, made + more)
    ensures !EndsInBypass(more) ==> QueuedUpTo(cfg, seed, beam, order, b + 1, room, made + more)
  {
    assert beam[..b + 1][..b] == beam[..b];
    CutConcat(Queue(cfg, seed, beam[..b], order), Tries(cfg, seed, beam[b], order), room, made, more);
    EndsAfter(made, more);
    if EndsInBypass(more) || |made + more| >= room {
      QueuePrefix(cfg, seed, beam, order, b + 1);
      CutSettled(Queue(cfg, seed, beam[..b + 1], order), Queue(cfg, seed, beam, order), room, made + more);
    }
  }

  ghost predicate LevelsAs(lv: Leveller, cfg: Config, seed: AttackSeed, beam: seq<BeamEntry>, depth: nat, spent: nat) {
    IsCut(Queue(cfg, seed, beam, cfg.order(depth)), cfg.budget - spent, lv(beam, depth, spent))
  }

  ghost predicate PicksAs(pick: Picker, cfg: Config, level: seq<Query>) { pick(level) == NextBeam(cfg, level) }

  /** The search's own level and beam functions, known by what they do. */
  ghost predicate Drives(cfg: Config, seed: AttackSeed, lv: Leveller, pick: Picker) {
    Levels(cfg, seed, lv) && forall level :: PicksAs(pick, cfg, level)
  }

  ghost predicate Levels(cfg: Config, seed: AttackSeed, lv: Leveller) {
    forall beam, depth: nat, spent: nat :: LevelsAs(lv, cfg, seed, beam, depth, spent)
  }

  lemma LevelIs(
    cfg: Config, seed: AttackSeed, lv: Leveller, beam: seq<BeamEntry>, depth: nat, spent: nat, level: seq<Query>)
    requires Levels(cfg, seed, lv) && IsCut(Queue(cfg, seed, beam, cfg.order(depth)), cfg.budget - spent, level)
    ensures level == lv(beam, depth, spent)
  {
    assert LevelsAs(lv, cfg, seed, beam, depth, spent);
    CutUnique(Queue(cfg, seed, beam, cfg.order(depth)), cfg.budget - spent, level, lv(beam, depth, spent));
  }

  lemma Driven(cfg: Config, seed: AttackSeed) returns (lv: Leveller, pick: Picker)
    ensures Drives(cfg, seed, lv, pick)
    ensures var first := FirstQuery(cfg, seed);
            Search(cfg, seed) == if IsBypass(first.result) then [first]
                                 else SearchFrom(lv, pick, cfg.budget, cfg.maxDepth, [(seed.content, [])], 0, [first])
  {
    lv, pick := LevelOf(cfg, seed), PickOf(cfg);
    forall beam, depth: nat, spent: nat ensures LevelsAs(lv, cfg, seed, beam, depth, spent) {
      CutIsCut(Queue(cfg, seed, beam, cfg.order(depth)), cfg.budget - spent);
    }
  }

  /** The next beam is the best of the level: as many as the width allows, best first, ties in
      query order, and nothing left out beats anything taken. */
  lemma NextBeamIsBest(cfg: Config, level: seq<Query>, i: nat, v: real)
    requires cfg.beamWidth >= 0 && i < |NextBeam(cfg, level)|
    ensures |NextBeam(cfg, level)| == if cfg.beamWidth < |level| then cfg.beamWidth else |level|
    ensures exists ranked: seq<Query> ::
      && multiset(ranked) == multiset(level) && Descending(ranked) && OfObjective(ranked, v) == OfObjective(level, v)
      && |ranked| == |level| && NextBeam(cfg, level)[i] == (ranked[i].content, ranked[i].chain)
  {
    var ranked := SortDesc(level);
    SortDescCorrect(level, v);
    assert |ranked| == |multiset(ranked)| == |multiset(level)| == |level|;
  }

  /** What a report says of its search, field by field. */
  lemma ReportIsHonest(cfg: Config, seed: AttackSeed, asked: seq<Query>, r: AttackResult)
    requires Reports(cfg, seed, asked, r)
    ensures r.seedId == seed.id && r.defenseClass == seed.defenseClass && r.queriesUsed == |asked|
    ensures r.staticVerdict == cfg.scorer(seed.content, seed.metadata).verdict
    ensures r.bypassed <==> r.bestVerdict == PERMIT
    ensures r.staticVerdict == PERMIT ==> r.queriesUsed == 1 && r.mutationChain == ["<unmutated>"]
  {
    assert asked[0] in asked && Faithful(cfg, seed, asked[0]);
    assert |asked| > 1 ==> asked[..|asked| - 1][0] == asked[0];
  }

  lemma NextBeamReproduces(cfg: Config, seed: AttackSeed, level: seq<Query>)
    requires AllFaithful(cfg, seed, level)
    ensures forall e :: e in NextBeam(cfg, level) ==> Reproduces(cfg, seed, e)
  {
    KeptAreCandidates(level, cfg.beamWidth);
    var kept := Take(SortDesc(level), cfg.beamWidth);
    forall e | e in NextBeam(cfg, level) ensures Reproduces(cfg, seed, e) {
      var i :| 0 <= i < |kept| && e == NextBeam(cfg, level)[i];
      assert kept[i] in kept;
      assert Faithful(cfg, seed, kept[i]);
    }
  }

  lemma KeptAreCandidates(cands: seq<Query>, width: int)
    ensures forall q :: q in Take(SortDesc(cands), width) ==> q in cands
  {
    SortDescCorrect(cands, 0.0);
    forall q | q in Take(SortDesc(cands), width) ensures q in cands {
      SameBagSameMembers(SortDesc(cands), cands, q);
    }
  }

  lemma SameBagSameMembers(a: seq<Query>, b: seq<Query>, q: Query)
    requires multiset(a) == multiset(b) && q in a
    ensures q in b
  {
    assert q in multiset(a);
  }
}
