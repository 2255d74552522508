/**
 The governance matrix: registry, action ledger and discovery ledger folded into one row per
 agent plus one per unresolved candidate, with counts and coverage lines.
 */
module Governance {
  import opened Wrappers

  datatype State = GOVERNED | UNGOVERNED | PARTIAL | UNKNOWN

  function Classify(observed: bool, adjudicated: bool): State {
    if observed && adjudicated then GOVERNED
    else if observed then UNGOVERNED
    else if adjudicated then PARTIAL
    else UNKNOWN
  }

  datatype Candidate = Candidate(name: string, tenant: string, riskBand: string, lastActive: Option<int>, discoveredAt: Option<int>) {
    function SeenAt(): Option<int> { if lastActive.Some? then lastActive else discoveredAt }
  }

  /** One discovery-ledger entry: the candidate, its reconciliation key, and the agent it
      resolved to, if any. */
  datatype Entry = Entry(candidate: Candidate, key: string, agent: Option<int>)

  datatype Action = Action(verdict: string, recordedAt: int)

  /** A registered agent; source and externalId are its non-blank discovery provenance. */
  datatype Agent = Agent(
    id: int, name: string, tenant: string, mode: Option<string>,
    source: Option<string>, externalId: Option<string>, riskBand: Option<string>)

  datatype Row = Row(
    agent: Option<int>, key: Option<string>, name: string, tenant: string, riskBand: Option<string>, state: State,
    observed: bool, adjudicated: bool, decisions: nat, forbids: nat, lastDecision: Option<int>, lastSeen: Option<int>)

  datatype Counts = Counts(
    total: nat, governed: nat, ungoverned: nat, partial: nat, unknown: nat,
    highRisk: nat, highRiskUngoverned: nat, governedWithForbids: nat)

  type Ledger = map<int, seq<Action>>

  const ADJUDICATION_DERIVED := "adjudication_derived"

  function UpperChar(c: char): char { if 'a' <= c <= 'z' then c - 'a' + 'A' else c }

  function Upper(s: string): string { seq(|s|, i requires 0 <= i < |s| => UpperChar(s[i])) }

  predicate HighBand(b: Option<string>) { b.Some? && (Upper(b.value) == "HIGH" || Upper(b.value) == "CRITICAL") }

  // ----- what the ledgers say about one agent or key ------------------------------------

  function Later(a: Option<int>, b: Option<int>): Option<int> {
    if b.None? then a else if a.None? || b.value > a.value then b else a
  }

  /** Newest sighting among the entries that resolved to the agent. */
  function LastSeen(es: seq<Entry>, id: int): Option<int> {
    if es == [] then None
    else
      var e, before := es[|es| - 1], LastSeen(es[..|es| - 1], id);
      if e.agent == Some(id) then Later(before, e.candidate.SeenAt()) else before
  }

  predicate Observed(es: seq<Entry>, id: int) { exists i :: 0 <= i < |es| && es[i].agent == Some(id) }

  /** The last entry that resolved to the agent. */
  function Provenance(es: seq<Entry>, id: int): Option<Entry> {
    if es == [] then None
    else if es[|es| - 1].agent == Some(id) then Some(es[|es| - 1])
    else Provenance(es[..|es| - 1], id)
  }

  /** The entry a ghost row speaks for: first sighting, replaced by strictly later ones. */
  function Ghost(es: seq<Entry>, key: string): Option<Entry> {
    if es == [] then None
    else
      var e, before := es[|es| - 1], Ghost(es[..|es| - 1], key);
      if e.agent.Some? || e.key != key then before
      else if before.None? || Supersedes(e, before.value) then Some(e)
      else before
  }

  predicate Supersedes(e: Entry, held: Entry) {
    var seen, prior := e.candidate.SeenAt(), held.candidate.SeenAt();
    seen.Some? && (prior.None? || seen.value > prior.value)
  }

  /** Keys of unresolved entries, in order of first appearance. */
  function GhostKeys(es: seq<Entry>): seq<string> {
    if es == [] then []
    else
      var e, before := es[|es| - 1], GhostKeys(es[..|es| - 1]);
      if e.agent.Some? || e.key in before then before else before + [e.key]
  }

  function Forbids(xs: seq<Action>): nat {
    if xs == [] then 0 else Forbids(xs[..|xs| - 1]) + (if Upper(xs[|xs| - 1].verdict) == "FORBID" then 1 else 0)
  }

  function LastDecision(xs: seq<Action>): Option<int> {
    if xs == [] then None else Later(LastDecision(xs[..|xs| - 1]), Some(xs[|xs| - 1].recordedAt))
  }

  function ActionsOf(ledger: Ledger, id: int): seq<Action> { if id in ledger then ledger[id] else [] }

  function OrElse(a: Option<string>, b: Option<string>): Option<string> {
    if a.Some? && a.value != "" then a else b
  }

  function AgentRow(a: Agent, ledger: Ledger, es: seq<Entry>): Row {
    var xs, p := ActionsOf(ledger, a.id), Provenance(es, a.id);
    var adjudicated := |xs| > 0 || a.mode == Some(ADJUDICATION_DERIVED);
    var observed := Observed(es, a.id) || (a.source.Some? && a.externalId.Some? && a.mode != Some(ADJUDICATION_DERIVED));
    var band := if p.Some? then OrElse(Some(p.value.candidate.riskBand), a.riskBand) else a.riskBand;
    Row(Some(a.id), if p.Some? then Some(p.value.key) else None, a.name, a.tenant, band, Classify(observed, adjudicated),
        observed, adjudicated, |xs|, Forbids(xs), LastDecision(xs), LastSeen(es, a.id))
  }

  function GhostRow(key: string, e: Entry): Row {
    Row(None, Some(key), e.candidate.name, e.candidate.tenant, Some(e.candidate.riskBand), UNGOVERNED,
        true, false, 0, 0, None, e.candidate.SeenAt())
  }

  function AgentRows(registry: seq<Agent>, ledger: Ledger, es: seq<Entry>): seq<Row> {
    if registry == [] then []
    else AgentRows(registry[..|registry| - 1], ledger, es) + [AgentRow(registry[|registry| - 1], ledger, es)]
  }

  function GhostRows(keys: seq<string>, es: seq<Entry>): seq<Row> {
    if keys == [] then []
    else
      var k := keys[|keys| - 1];
      GhostRows(keys[..|keys| - 1], es) + (match Ghost(es, k) case Some(e) => [GhostRow(k, e)] case None => [])
  }

  // ----- independent recount ------------------------------------------------------------

  function OfState(rows: seq<Row>, s: State): nat {
    if rows == [] then 0 else OfState(rows[..|rows| - 1], s) + (if rows[|rows| - 1].state == s then 1 else 0)
  }

  function CountIf(rows: seq<Row>, p: Row -> bool): nat {
    if rows == [] then 0 else CountIf(rows[..|rows| - 1], p) + (if p(rows[|rows| - 1]) then 1 else 0)
  }

  function IsHigh(): Row -> bool { (r: Row) => HighBand(r.riskBand) }
  function IsHighUngoverned(): Row -> bool { (r: Row) => HighBand(r.riskBand) && r.state == UNGOVERNED }
  function IsForbidding(): Row -> bool { (r: Row) => r.state == GOVERNED && r.forbids > 0 }

  /** The counts a row list should carry. */
  function Recount(rows: seq<Row>): Counts {
    Counts(|rows|, OfState(rows, GOVERNED), OfState(rows, UNGOVERNED), OfState(rows, PARTIAL), OfState(rows, UNKNOWN),
           CountIf(rows, IsHigh()), CountIf(rows, IsHighUngoverned()), CountIf(rows, IsForbidding()))
  }

  function Bump(c: Counts, r: Row): Counts {
    Counts(c.total + 1,
           c.governed + (if r.state == GOVERNED then 1 else 0), c.ungoverned + (if r.state == UNGOVERNED then 1 else 0),
           c.partial + (if r.state == PARTIAL then 1 else 0), c.unknown + (if r.state == UNKNOWN then 1 else 0),
           c.highRisk + (if HighBand(r.riskBand) then 1 else 0),
           c.highRiskUngoverned + (if HighBand(r.riskBand) && r.state == UNGOVERNED then 1 else 0),
           c.governedWithForbids + (if r.state == GOVERNED && r.forbids > 0 then 1 else 0))
  }

  lemma RecountPush(rows: seq<Row>, r: Row)
    ensures Recount(rows + [r]) == Bump(Recount(rows), r)
  {
    assert (rows + [r])[..|rows + [r]| - 1] == rows;
  }

  // ----- the builder --------------------------------------------------------------------

  /** The dictionaries the first loop fills. */
  datatype Index = Index(
    observed: set<int>, lastSeen: map<int, int>, provenance: map<int, Entry>, ghosts: map<string, Entry>, order: seq<string>)

  ghost predicate Indexes(ix: Index, es: seq<Entry>) { IndexesAgents(ix, es) && IndexesGhosts(ix, es) }

  ghost predicate IndexesAgents(ix: Index, es: seq<Entry>) {
    && (forall id :: id in ix.observed <==> Observed(es, id))
    && (forall id :: LastSeen(es, id) == if id in ix.lastSeen then Some(ix.lastSeen[id]) else None)
    && (forall id :: Provenance(es, id) == if id in ix.provenance then Some(ix.provenance[id]) else None)
  }

  ghost predicate IndexesGhosts(ix: Index, es: seq<Entry>) {
    && (forall k :: Ghost(es, k) == if k in ix.ghosts then Some(ix.ghosts[k]) else None)
    && ix.order == GhostKeys(es)
    && (forall k :: k in ix.order <==> k in ix.ghosts)
  }

  function IndexOne(ix: Index, e: Entry): Index {
    match e.agent
    case Some(id) =>
      var seen := e.candidate.SeenAt();
      var newer := seen.Some? && (id !in ix.lastSeen || seen.value > ix.lastSeen[id]);
      ix.(observed := ix.observed + {id},
          lastSeen := if newer then ix.lastSeen[id := seen.value] else ix.lastSeen,
          provenance := ix.provenance[id := e])
    case None =>
      if e.key !in ix.ghosts then ix.(ghosts := ix.ghosts[e.key := e], order := ix.order + [e.key])
      else if Supersedes(e, ix.ghosts[e.key]) then ix.(ghosts := ix.ghosts[e.key := e])
      else ix
  }

  lemma ObservedPush(es: seq<Entry>, e: Entry, id: int)
    ensures Observed(es + [e], id) <==> Observed(es, id) || e.agent == Some(id)
  {
    if Observed(es, id) {
      var i :| 0 <= i < |es| && es[i].agent == Some(id);
      assert (es + [e])[i] == es[i];
    }
    assert (es + [e])[|es|] == e;
  }

  lemma AgentIndexStep(ix: Index, es: seq<Entry>, e: Entry)
    requires IndexesAgents(ix, es)
    ensures IndexesAgents(IndexOne(ix, e), es + [e])
  {
    assert (es + [e])[..|es + [e]| - 1] == es;
    forall id ensures Observed(es + [e], id) <==> Observed(es, id) || e.agent == Some(id) {
      ObservedPush(es, e, id);
    }
  }

  lemma GhostIndexStep(ix: Index, es: seq<Entry>, e: Entry)
    requires IndexesGhosts(ix, es)
    ensures IndexesGhosts(IndexOne(ix, e), es + [e])
  {
    assert (es + [e])[..|es + [e]| - 1] == es;
  }

  lemma IndexStep(ix: Index, es: seq<Entry>, e: Entry)
    requires Indexes(ix, es)
    ensures Indexes(IndexOne(ix, e), es + [e])
  {
    AgentIndexStep(ix, es, e);
    GhostIndexStep(ix, es, e);
  }

  method BuildIndex(es: seq<Entry>) returns (ix: Index)
    ensures Indexes(ix, es)
  {
    ix := Index({}, map[], map[], map[], []);
    for i := 0 to |es|
      invariant Indexes(ix, es[..i])
    {
      IndexStep(ix, es[..i], es[i]);
      assert es[..i + 1] == es[..i] + [es[i]];
      ix := IndexOne(ix, es[i]);
    }
    assert es[..|es|] == es;
  }

  method Build(registry: seq<Agent>, ledger: Ledger, es: seq<Entry>) returns (rows: seq<Row>, counts: Counts)
    ensures rows == AgentRows(registry, ledger, es) + GhostRows(GhostKeys(es), es)
    ensures counts == Recount(rows)
  {
    var ix := BuildIndex(es);
    rows, counts := AddAgents(registry, ledger, ix, es);
    rows, counts := AddGhosts(rows, counts, ix, es);
  }

  method AddAgents(registry: seq<Agent>, ledger: Ledger, ix: Index, ghost es: seq<Entry>)
    returns (rows: seq<Row>, counts: Counts)
    requires Indexes(ix, es)
    ensures rows == AgentRows(registry, ledger, es) && counts == Recount(rows)
  {
    rows, counts := [], Counts(0, 0, 0, 0, 0, 0, 0, 0);
    for i := 0 to |registry|
      invariant rows == AgentRows(registry[..i], ledger, es) && counts == Recount(rows)
    {
      assert registry[..i + 1][..i] == registry[..i];
      var r := RowFromIndex(registry[i], ledger, ix, es);
      RecountPush(rows, r);
      rows, counts := rows + [r], Bump(counts, r);
    }
    assert registry[..|registry|] == registry;
  }

  lemma GhostPush(ix: Index, es: seq<Entry>, j: nat)
    requires Indexes(ix, es) && j < |ix.order|
    ensures ix.order[j] in ix.ghosts
    ensures GhostRows(ix.order[..j + 1], es)
         == GhostRows(ix.order[..j], es) + [GhostRow(ix.order[j], ix.ghosts[ix.order[j]])]
  {
    var k := ix.order[j];
    assert ix.order[..j + 1][..j] == ix.order[..j];
    assert k in ix.order && Ghost(es, k) == Some(ix.ghosts[k]);
  }

  method AddGhosts(agents: seq<Row>, before: Counts, ix: Index, ghost es: seq<Entry>)
    returns (rows: seq<Row>, counts: Counts)
    requires Indexes(ix, es) && before == Recount(agents)
    ensures rows == agents + GhostRows(GhostKeys(es), es) && counts == Recount(rows)
  {
    rows, counts := agents, before;
    for j := 0 to |ix.order|
      invariant rows == agents + GhostRows(ix.order[..j], es) && counts == Recount(rows)
    {
      var k := ix.order[j];
      GhostPush(ix, es, j);
      var r := GhostRow(k, ix.ghosts[k]);
      RecountPush(rows, r);
      rows, counts := rows + [r], Bump(counts, r);
    }
    assert ix.order[..|ix.order|] == ix.order;
  }

  method RowFromIndex(a: Agent, ledger: Ledger, ix: Index, ghost es: seq<Entry>) returns (r: Row)
    requires Indexes(ix, es)
    ensures r == AgentRow(a, ledger, es)
  {
    var xs := ActionsOf(ledger, a.id);
    var adjudicated := |xs| > 0 || a.mode == Some(ADJUDICATION_DERIVED);
    var observed := a.id in ix.observed
                    || (a.source.Some? && a.externalId.Some? && a.mode != Some(ADJUDICATION_DERIVED));
    var known := a.id in ix.provenance;
    var band := if known then OrElse(Some(ix.provenance[a.id].candidate.riskBand), a.riskBand) else a.riskBand;
    r := Row(Some(a.id), if known then Some(ix.provenance[a.id].key) else None, a.name, a.tenant, band,
             Classify(observed, adjudicated), observed, adjudicated, |xs|, Forbids(xs), LastDecision(xs),
             if a.id in ix.lastSeen then Some(ix.lastSeen[a.id]) else None);
  }

  // ----- conservation -------------------------------------------------------------------

  lemma {:induction false} RecountConserves(rows: seq<Row>)
    ensures var c := Recount(rows);
            && c.governed + c.ungoverned + c.partial + c.unknown == c.total == |rows|
            && c.highRiskUngoverned <= c.highRisk && c.highRiskUngoverned <= c.ungoverned
            && c.governedWithForbids <= c.governed
  {
    if rows != [] {
      var most, last := rows[..|rows| - 1], rows[|rows| - 1];
      RecountConserves(most);
      assert rows == most + [last];
      RecountPush(most, last);
    }
  }

  lemma {:induction false} GhostExists(es: seq<Entry>, key: string)
    ensures Ghost(es, key).Some? <==> key in GhostKeys(es)
    ensures key in GhostKeys(es) <==> exists i :: 0 <= i < |es| && es[i].agent.None? && es[i].key == key
  {
    if es != [] {
      var most, last := es[..|es| - 1], es[|es| - 1];
      GhostExists(most, key);
      assert es == most + [last];
      if i :| 0 <= i < |most| && most[i].agent.None? && most[i].key == key {
        assert es[i].agent.None? && es[i].key == key;
      }
      if i :| 0 <= i < |es| && es[i].agent.None? && es[i].key == key {
        assert i < |most| ==> most[i].agent.None? && most[i].key == key;
      }
    }
  }

  lemma {:induction false} GhostKeysDistinct(es: seq<Entry>)
    ensures forall i, j :: 0 <= i < j < |GhostKeys(es)| ==> GhostKeys(es)[i] != GhostKeys(es)[j]
  {
    if es != [] {
      GhostKeysDistinct(es[..|es| - 1]);
    }
  }

  lemma {:induction false} RowSizes(registry: seq<Agent>, ledger: Ledger, es: seq<Entry>, keys: seq<string>)
    requires forall k :: k in keys ==> Ghost(es, k).Some?
    ensures |AgentRows(registry, ledger, es)| == |registry|
    ensures |GhostRows(keys, es)| == |keys|
    decreases |registry| + |keys|
  {
    if registry != [] {
      RowSizes(registry[..|registry| - 1], ledger, es, keys);
    } else if keys != [] {
      assert keys[|keys| - 1] in keys && forall k :: k in keys[..|keys| - 1] ==> k in keys;
      RowSizes(registry, ledger, es, keys[..|keys| - 1]);
    }
  }

  /** The four state counts sum to the rows: every registered agent plus one per distinct key
      of an unresolved entry; each sub-count is bounded by its parents. */
  lemma Conservation(registry: seq<Agent>, ledger: Ledger, es: seq<Entry>)
    ensures var rows := AgentRows(registry, ledger, es) + GhostRows(GhostKeys(es), es);
            var c := Recount(rows);
            && c.governed + c.ungoverned + c.partial + c.unknown == |rows|
            && |rows| == |registry| + |set i | 0 <= i < |es| && es[i].agent.None? :: es[i].key|
            && c.highRiskUngoverned <= c.highRisk && c.highRiskUngoverned <= c.ungoverned
            && c.governedWithForbids <= c.governed
  {
    var keys := GhostKeys(es);
    RecountConserves(AgentRows(registry, ledger, es) + GhostRows(keys, es));
    forall k | k in keys ensures Ghost(es, k).Some? {
      GhostExists(es, k);
    }
    RowSizes(registry, ledger, es, keys);
    GhostKeysDistinct(es);
    DistinctSize(keys);
    var s := set i | 0 <= i < |es| && es[i].agent.None? :: es[i].key;
    forall k ensures k in s <==> k in keys {
      GhostExists(es, k);
    }
    assert s == set k | k in keys;
  }

  lemma {:induction false} DistinctSize(keys: seq<string>)
    requires forall i, j :: 0 <= i < j < |keys| ==> keys[i] != keys[j]
    ensures |set k | k in keys| == |keys|
  {
    if keys != [] {
      var most, last := keys[..|keys| - 1], keys[|keys| - 1];
      DistinctSize(most);
      assert (set k | k in keys) == (set k | k in most) + {last};
    }
  }

  /** A key that resolved in one entry still leaves a ghost row if another did not resolve. */
  lemma ResolvedKeyMayStillHaunt()
    ensures var c := Candidate("a", "t", "LOW", None, Some(1));
            var es := [Entry(c, "k", Some(7)), Entry(c, "k", None)];
            Observed(es, 7) && GhostKeys(es) == ["k"]
  {
    var c := Candidate("a", "t", "LOW", None, Some(1));
    var es := [Entry(c, "k", Some(7)), Entry(c, "k", None)];
    assert es[0].agent == Some(7);
    assert es[..1] == [es[0]] && es[..1][..0] == [];
    assert GhostKeys(es[..1]) == [];
  }

  // ----- sightings ----------------------------------------------------------------------

  /** A last-seen value is a sighting of that agent, and no sighting is later. */
  lemma {:induction false} LastSeenIsMaximum(es: seq<Entry>, id: int)
    ensures match LastSeen(es, id)
            case None => forall e :: e in es && e.agent == Some(id) ==> e.candidate.SeenAt().None?
            case Some(t) =>
              && (exists e :: e in es && e.agent == Some(id) && e.candidate.SeenAt() == Some(t))
              && (forall e :: e in es && e.agent == Some(id) && e.candidate.SeenAt().Some? ==> e.candidate.SeenAt().value <= t)
  {
    if es != [] {
      var most, last := es[..|es| - 1], es[|es| - 1];
      LastSeenIsMaximum(most, id);
      assert es == most + [last];
      if LastSeen(most, id).Some? {
        var e :| e in most && e.agent == Some(id) && e.candidate.SeenAt() == LastSeen(most, id);
        assert e in es;
      }
    }
  }

  // ----- coverage -----------------------------------------------------------------------

  /** A coverage line; the sorted list of lines is canonical for their multiset. */
  function Line(r: Row): (Option<int>, string, State) {
    (r.agent, if r.key.Some? then r.key.value else "", r.state)
  }

  function Coverage(rows: seq<Row>): multiset<(Option<int>, string, State)> {
    if rows == [] then multiset{} else Coverage(rows[..|rows| - 1]) + multiset{Line(rows[|rows| - 1])}
  }

  lemma {:induction false} CoverageConcat(a: seq<Row>, b: seq<Row>)
    ensures Coverage(a + b) == Coverage(a) + Coverage(b)
  {
    if b == [] {
      assert a + b == a;
    } else {
      assert (a + b)[..|a + b| - 1] == a + b[..|b| - 1];
      CoverageConcat(a, b[..|b| - 1]);
    }
  }

  /** The images of a list, as a multiset. */
  function Bag<T, L>(xs: seq<T>, f: T -> L): multiset<L> {
    if xs == [] then multiset{} else Bag(xs[..|xs| - 1], f) + multiset{f(xs[|xs| - 1])}
  }

  /** Taking one element out takes its image out, wherever it stood. */
  lemma {:induction false} BagRemove<T, L>(p: seq<T>, x: T, q: seq<T>, f: T -> L)
    ensures Bag(p + [x] + q, f) == Bag(p + q, f) + multiset{f(x)}
    decreases |q|
  {
    if q == [] {
      assert p + [x] + q == p + [x] && p + q == p;
      assert (p + [x])[..|p + [x]| - 1] == p;
    } else {
      var most := q[..|q| - 1];
      assert (p + [x] + q)[..|p + [x] + q| - 1] == p + [x] + most;
      assert (p + q)[..|p + q| - 1] == p + most;
      BagRemove(p, x, most, f);
    }
  }

  lemma {:induction false} BagOrderFree<T, L>(a: seq<T>, b: seq<T>, f: T -> L)
    requires multiset(a) == multiset(b)
    ensures Bag(a, f) == Bag(b, f)
    decreases |a|
  {
    if a == [] {
      assert |multiset(b)| == 0;
    } else {
      var most, x := a[..|a| - 1], a[|a| - 1];
      assert a == most + [x];
      var p, q := TakeOut(most, x, b);
      BagOrderFree(most, p + q, f);
      BagRemove(p, x, q, f);
    }
  }

  lemma TakeOut<T>(most: seq<T>, x: T, b: seq<T>) returns (p: seq<T>, q: seq<T>)
    requires multiset(most + [x]) == multiset(b)
    ensures b == p + [x] + q && multiset(most) == multiset(p + q)
  {
    assert x in multiset(most + [x]);
    assert x in multiset(b);
    var i :| 0 <= i < |b| && b[i] == x;
    p, q := b[..i], b[i + 1..];
    assert b == p + [x] + q;
    assert multiset(p + q) == multiset(b) - multiset{x};
    assert multiset(most) == multiset(most + [x]) - multiset{x};
  }

  lemma {:induction false} CoverageIsBag(registry: seq<Agent>, ledger: Ledger, es: seq<Entry>, f: Agent -> (Option<int>, string, State))
    requires forall a :: f(a) == Line(AgentRow(a, ledger, es))
    ensures Coverage(AgentRows(registry, ledger, es)) == Bag(registry, f)
  {
    if registry != [] {
      var most, last := registry[..|registry| - 1], registry[|registry| - 1];
      CoverageIsBag(most, ledger, es, f);
      var rows, r := AgentRows(most, ledger, es), AgentRow(last, ledger, es);
      assert (rows + [r])[..|rows + [r]| - 1] == rows;
      assert f(last) == Line(r);
    }
  }

  /** The coverage lines of the whole matrix do not change under any reordering of the
      registry. */
  lemma CoverageOrderFree(a: seq<Agent>, b: seq<Agent>, ledger: Ledger, es: seq<Entry>)
    requires multiset(a) == multiset(b)
    ensures Coverage(AgentRows(a, ledger, es) + GhostRows(GhostKeys(es), es))
         == Coverage(AgentRows(b, ledger, es) + GhostRows(GhostKeys(es), es))
  {
    var f := (x: Agent) => Line(AgentRow(x, ledger, es));
    CoverageIsBag(a, ledger, es, f);
    CoverageIsBag(b, ledger, es, f);
    BagOrderFree(a, b, f);
    CoverageConcat(AgentRows(a, ledger, es), GhostRows(GhostKeys(es), es));
    CoverageConcat(AgentRows(b, ledger, es), GhostRows(GhostKeys(es), es));
  }

  // ----- the tenant-filtered recount ----------------------------------------------------

  /** The tenant path counts only rows banded literally HIGH. */
  function IsLiteralHigh(): Row -> bool { (r: Row) => r.riskBand == Some("HIGH") }

  function IsLiteralHighUngoverned(): Row -> bool { (r: Row) => r.riskBand == Some("HIGH") && r.state == UNGOVERNED }

  /** On the same rows it never counts more than the builder does, and as many exactly when every
      high band is spelled HIGH. */
  lemma {:induction false} TenantHighRiskUndercounts(rows: seq<Row>)
    ensures CountIf(rows, IsLiteralHigh()) <= CountIf(rows, IsHigh())
    ensures CountIf(rows, IsLiteralHigh()) == CountIf(rows, IsHigh())
       <==> forall r :: r in rows && HighBand(r.riskBand) ==> r.riskBand == Some("HIGH")
  {
    if rows != [] {
      var most, last := rows[..|rows| - 1], rows[|rows| - 1];
      TenantHighRiskUndercounts(most);
      assert rows == most + [last];
      assert Upper("HIGH") == "HIGH";
      assert last in rows;
    }
  }

  /** The same for its recount of high-risk ungoverned rows. */
  lemma {:induction false} TenantUngovernedUndercounts(rows: seq<Row>)
    ensures CountIf(rows, IsLiteralHighUngoverned()) <= CountIf(rows, IsHighUngoverned())
    ensures CountIf(rows, IsLiteralHighUngoverned()) == CountIf(rows, IsHighUngoverned())
       <==> forall r :: r in rows && HighBand(r.riskBand) && r.state == UNGOVERNED ==> r.riskBand == Some("HIGH")
  {
    if rows != [] {
      var most, last := rows[..|rows| - 1], rows[|rows| - 1];
      TenantUngovernedUndercounts(most);
      assert rows == most + [last];
      assert Upper("HIGH") == "HIGH";
      assert last in rows;
    }
  }

  // ----- what each state means ------------------------------------------------------------

  function CountAgents(registry: seq<Agent>, p: Agent -> bool): nat {
    if registry == [] then 0
    else CountAgents(registry[..|registry| - 1], p) + (if p(registry[|registry| - 1]) then 1 else 0)
  }

  /** Seen from outside: some discovery entry resolved to the agent, or it carries provenance of
      its own that adjudication did not invent. */
  predicate SeenOutside(a: Agent, es: seq<Entry>) {
    (exists e :: e in es && e.agent == Some(a.id))
    || (a.source != None && a.externalId != None && a.mode != Some("adjudication_derived"))
  }

  /** Came before the gate: it has decisions, or was registered by adjudication. */
  predicate Decided(a: Agent, ledger: Ledger) {
    (a.id in ledger && ledger[a.id] != []) || a.mode == Some("adjudication_derived")
  }

  function OfKind(ledger: Ledger, es: seq<Entry>, seen: bool, decided: bool): Agent -> bool {
    (a: Agent) => SeenOutside(a, es) == seen && Decided(a, ledger) == decided
  }

  lemma RowKind(a: Agent, ledger: Ledger, es: seq<Entry>)
    ensures AgentRow(a, ledger, es).state ==
      if SeenOutside(a, es) then (if Decided(a, ledger) then GOVERNED else UNGOVERNED)
      else if Decided(a, ledger) then PARTIAL else UNKNOWN
  {
    assert Observed(es, a.id) <==> exists e :: e in es && e.agent == Some(a.id);
  }

  lemma {:induction false} OfStateConcat(a: seq<Row>, b: seq<Row>, s: State)
    ensures OfState(a + b, s) == OfState(a, s) + OfState(b, s)
  {
    if b == [] {
      assert a + b == a;
    } else {
      assert (a + b)[..|a + b| - 1] == a + b[..|b| - 1];
      OfStateConcat(a, b[..|b| - 1], s);
    }
  }

  lemma {:induction false} AgentStates(registry: seq<Agent>, ledger: Ledger, es: seq<Entry>)
    ensures OfState(AgentRows(registry, ledger, es), GOVERNED) == CountAgents(registry, OfKind(ledger, es, true, true))
    ensures OfState(AgentRows(registry, ledger, es), UNGOVERNED) == CountAgents(registry, OfKind(ledger, es, true, false))
    ensures OfState(AgentRows(registry, ledger, es), PARTIAL) == CountAgents(registry, OfKind(ledger, es, false, true))
    ensures OfState(AgentRows(registry, ledger, es), UNKNOWN) == CountAgents(registry, OfKind(ledger, es, false, false))
  {
    if registry != [] {
      var most, last := registry[..|registry| - 1], registry[|registry| - 1];
      AgentStates(most, ledger, es);
      RowKind(last, ledger, es);
      var rows := AgentRows(registry, ledger, es);
      assert rows[..|rows| - 1] == AgentRows(most, ledger, es);
    }
  }

  lemma {:induction false} GhostStates(keys: seq<string>, es: seq<Entry>, s: State)
    requires forall k :: k in keys ==> Ghost(es, k).Some?
    ensures OfState(GhostRows(keys, es), s) == if s == UNGOVERNED then |keys| else 0
  {
    if keys != [] {
      var most, k := keys[..|keys| - 1], keys[|keys| - 1];
      assert k in keys && forall x :: x in most ==> x in keys;
      GhostStates(most, es, s);
      var rows := GhostRows(keys, es);
      assert rows[..|rows| - 1] == GhostRows(most, es);
    }
  }

  /** Each counter, over registry and ledgers: governed are the agents seen outside and decided,
      ungoverned those seen and never decided plus the ghost keys, partial those decided and never
      seen, unknown the rest. */
  lemma StatesMean(registry: seq<Agent>, ledger: Ledger, es: seq<Entry>)
    ensures var c := Recount(AgentRows(registry, ledger, es) + GhostRows(GhostKeys(es), es));
      && c.governed == CountAgents(registry, OfKind(ledger, es, true, true))
      && c.ungoverned == CountAgents(registry, OfKind(ledger, es, true, false)) + |GhostKeys(es)|
      && c.partial == CountAgents(registry, OfKind(ledger, es, false, true))
      && c.unknown == CountAgents(registry, OfKind(ledger, es, false, false))
  {
    var a, g := AgentRows(registry, ledger, es), GhostRows(GhostKeys(es), es);
    AgentStates(registry, ledger, es);
    forall k | k in GhostKeys(es) ensures Ghost(es, k).Some? {
      GhostExists(es, k);
    }
    GhostStates(GhostKeys(es), es, GOVERNED);
    GhostStates(GhostKeys(es), es, UNGOVERNED);
    GhostStates(GhostKeys(es), es, PARTIAL);
    GhostStates(GhostKeys(es), es, UNKNOWN);
    OfStateConcat(a, g, GOVERNED);
    OfStateConcat(a, g, UNGOVERNED);
    OfStateConcat(a, g, PARTIAL);
    OfStateConcat(a, g, UNKNOWN);
  }

  // ----- which entry a row speaks for -----------------------------------------------------

  /** A ghost row speaks for an unresolved entry of its key with the newest sighting of them all. */
  lemma {:induction false} GhostShowsNewest(es: seq<Entry>, key: string)
    ensures match Ghost(es, key)
            case None => forall e :: e in es ==> e.agent.Some? || e.key != key
            case Some(g) =>
              && g in es && g.agent.None? && g.key == key
              && forall e :: e in es && e.agent.None? && e.key == key && e.candidate.SeenAt().Some? ==>
                   g.candidate.SeenAt().Some? && e.candidate.SeenAt().value <= g.candidate.SeenAt().value
  {
    if es != [] {
      var most, last := es[..|es| - 1], es[|es| - 1];
      GhostShowsNewest(most, key);
      assert es == most + [last];
    }
  }

  /** An agent's provenance is the last entry that resolved to it. */
  lemma {:induction false} ProvenanceIsLast(es: seq<Entry>, id: int, i: nat)
    requires i < |es| && es[i].agent == Some(id) && forall j :: i < j < |es| ==> es[j].agent != Some(id)
    ensures Provenance(es, id) == Some(es[i])
  {
    if i < |es| - 1 {
      ProvenanceIsLast(es[..|es| - 1], id, i);
    }
  }

  lemma {:induction false} LastDecisionIsMaximum(xs: seq<Action>)
    ensures match LastDecision(xs)
            case None => xs == []
            case Some(t) => (exists x :: x in xs && x.recordedAt == t) && forall x :: x in xs ==> x.recordedAt <= t
  {
    if xs != [] {
      var most, last := xs[..|xs| - 1], xs[|xs| - 1];
      LastDecisionIsMaximum(most);
      assert xs == most + [last];
      assert last in xs && forall x :: x in most ==> x in xs;
    }
  }

  lemma {:induction false} ForbidsCounted(xs: seq<Action>)
    ensures Forbids(xs) == |ForbiddenAt(xs)|
  {
    if xs == [] {
      assert ForbiddenAt(xs) == {};
    } else {
      var n := |xs| - 1;
      ForbidsCounted(xs[..n]);
      var here: set<nat> := if Upper(xs[n].verdict) == "FORBID" then {n} else {};
      assert ForbiddenAt(xs) == ForbiddenAt(xs[..n]) + here;
    }
  }

  /** The decisions that forbade, in any case. */
  function ForbiddenAt(xs: seq<Action>): set<nat> { set i: nat | i < |xs| && Upper(xs[i].verdict) == "FORBID" }

  /** The input that tells the two high-risk counts apart: a row banded CRITICAL. */
  lemma CriticalIsMissed(r: Row)
    requires r.riskBand == Some("CRITICAL")
    ensures CountIf([r], IsHigh()) == 1 && CountIf([r], IsLiteralHigh()) == 0
  {
    assert Upper("CRITICAL") == "CRITICAL";
    assert [r][..0] == [];
    assert "CRITICAL" != "HIGH";
  }
}
