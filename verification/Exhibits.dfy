/**
 The exhibits layer: which decision rows a question measures, and the exhibits minted from
 them. Case folding, stripping, the spoken form of a number, the clock and the resolution of
 a window label to UTC bounds are arbitrary; times are integers.
 */
module Exhibits {
  import opened Wrappers
  import opened Spans

  datatype Row = Row(
    id: string, tenant: Option<string>, verdict: Option<string>, decidedAt: Option<int>,
    agent: Option<string>, action: Option<string>, anchor: Option<string>)

  /** What the measurement depends on beside the rows. */
  datatype Env = Env(
    fold: string -> string, strip: string -> string, upper: string -> string,
    humanize: int -> string, now: string)

  datatype Filter = Filter(tenant: string, verdict: Option<string>, since: Option<int>, until: Option<int>)

  /** Rows in save order, when the store can list them; and its durable reads, which may be
      absent or fault (None). */
  datatype Store = Store(
    listing: Option<seq<Row>>, finder: (Filter, Option<nat>) -> Option<seq<Row>>, counter: Filter -> Option<int>)

  datatype Error = TenantRequired | UnknownVerdict | BadStore | NegativeLimit | NotFound

  predicate TenantVisible(env: Env, row: Row, wanted: string) {
    var stamped := match row.tenant case Some(t) => (if t == "" then "default" else t) case None => "default";
    var folded := env.fold(env.strip(stamped));
    folded == wanted || folded == "default"
  }

  /** Half-open membership; an undated row is in the unbounded window only. */
  predicate InWindow(row: Row, since: Option<int>, until: Option<int>) {
    match row.decidedAt
    case None => since.None? && until.None?
    case Some(t) => (since.None? || since.value <= t) && (until.None? || t < until.value)
  }

  predicate Matches(env: Env, row: Row, f: Filter) {
    && TenantVisible(env, row, f.tenant)
    && (f.verdict.None? || row.verdict == f.verdict)
    && InWindow(row, f.since, f.until)
  }

  /** The matching rows, last saved first. */
  function Newest(env: Env, rows: seq<Row>, f: Filter): seq<Row> {
    if rows == [] then []
    else
      var last := rows[|rows| - 1];
      Picked(env, last, f) + Newest(env, rows[..|rows| - 1], f)
  }

  function Limited<X>(xs: seq<X>, limit: Option<nat>): seq<X> {
    if limit.None? || |xs| <= limit.value then xs else xs[..limit.value]
  }

  function Reversed(rows: seq<Row>): (r: seq<Row>)
    ensures |r| == |rows| && forall i :: 0 <= i < |rows| ==> r[i] == rows[|rows| - 1 - i]
  {
    seq(|rows|, i requires 0 <= i < |rows| => rows[|rows| - 1 - i])
  }

  function Picked(env: Env, row: Row, f: Filter): seq<Row> { if Matches(env, row, f) then [row] else [] }

  lemma NewestLast(env: Env, rows: seq<Row>, f: Filter)
    requires rows != []
    ensures Newest(env, rows, f) == Picked(env, rows[|rows| - 1], f) + Newest(env, rows[..|rows| - 1], f)
  {
  }

  /** The three tests of the loop, in order. */
  method Keeps(env: Env, row: Row, f: Filter) returns (keep: bool)
    ensures keep == Matches(env, row, f)
  {
    if !TenantVisible(env, row, f.tenant) {
      return false;
    }
    if f.verdict.Some? && row.verdict != f.verdict {
      return false;
    }
    keep := InWindow(row, f.since, f.until);
  }

  lemma SiftStep(env: Env, rows: seq<Row>, f: Filter, m: nat, matched: seq<Row>, keep: bool)
    requires 0 < m <= |rows| && keep == Matches(env, rows[m - 1], f)
    ensures matched + Newest(env, rows[..m], f)
         == (if keep then matched + [rows[m - 1]] else matched) + Newest(env, rows[..m - 1], f)
  {
    assert rows[..m][..m - 1] == rows[..m - 1];
    NewestLast(env, rows[..m], f);
  }

  method MatchingRows(env: Env, store: Store, f: Filter, limit: Option<nat>) returns (r: Result<seq<Row>, Error>)
    ensures r == RowsOf(env, store, f, limit)
  {
    var durable := store.finder(f, limit);
    if durable.Some? {
      return Ok(durable.value);
    }
    if store.listing.None? {
      return Err(BadStore);
    }
    var rows := store.listing.value;
    var ordered := Reversed(rows);
    var matched: seq<Row> := [];
    assert rows[..|rows|] == rows;
    for i := 0 to |ordered|
      invariant matched + Newest(env, rows[..|rows| - i], f) == Newest(env, rows, f)
    {
      var keep := Keeps(env, ordered[i], f);
      SiftStep(env, rows, f, |rows| - i, matched, keep);
      if keep {
        matched := matched + [ordered[i]];
      }
    }
    assert rows[..|rows| - |ordered|] == [] && matched + [] == matched;
    return Ok(Limited(matched, limit));
  }

  /** Durable first, then the listing, newest first. */
  function RowsOf(env: Env, store: Store, f: Filter, limit: Option<nat>): Result<seq<Row>, Error> {
    match store.finder(f, limit)
    case Some(rows) => Ok(rows)
    case None =>
      match store.listing
      case None => Err(BadStore)
      case Some(rows) => Ok(Limited(Newest(env, rows, f), limit))
  }

  method CountRows(env: Env, store: Store, f: Filter) returns (r: Result<int, Error>)
    ensures r == CountOf(env, store, f)
  {
    var n := store.counter(f);
    if n.Some? {
      return Ok(n.value);
    }
    var rows := MatchingRows(env, store, f, None);
    match rows {
      case Ok(found) => return Ok(|found|);
      case Err(e) => return Err(e);
    }
  }

  function CountOf(env: Env, store: Store, f: Filter): Result<int, Error> {
    match store.counter(f)
    case Some(n) => Ok(n)
    case None =>
      match RowsOf(env, store, f, None)
      case Ok(rows) => Ok(|rows|)
      case Err(e) => Err(e)
  }

  // ----- what the filter selects ----------------------------------------------------------

  /** Save positions of the matching rows, descending. */
  function Positions(env: Env, rows: seq<Row>, f: Filter): seq<nat> {
    if rows == [] then []
    else
      var n := |rows| - 1;
      (if Matches(env, rows[n], f) then [n] else []) + Positions(env, rows[..n], f)
  }

  /** Positions below |rows|, strictly descending. */
  ghost predicate Descending(ps: seq<nat>, bound: nat) {
    && (forall k :: 0 <= k < |ps| ==> ps[k] < bound)
    && (forall j, k :: 0 <= j < k < |ps| ==> ps[j] > ps[k])
  }

  ghost predicate At(found: seq<Row>, rows: seq<Row>, ps: seq<nat>) {
    |found| == |ps| && forall k :: 0 <= k < |ps| ==> ps[k] < |rows| && found[k] == rows[ps[k]]
  }

  lemma {:induction false} PositionsDescend(env: Env, rows: seq<Row>, f: Filter)
    ensures Descending(Positions(env, rows, f), |rows|)
  {
    if rows != [] {
      PositionsDescend(env, rows[..|rows| - 1], f);
    }
  }

  lemma {:induction false} PositionsComplete(env: Env, rows: seq<Row>, f: Filter, i: nat)
    requires i < |rows|
    ensures Matches(env, rows[i], f) <==> i in Positions(env, rows, f)
  {
    var n := |rows| - 1;
    PositionsDescend(env, rows[..n], f);
    if i < n {
      PositionsComplete(env, rows[..n], f, i);
    }
  }

  lemma {:induction false} NewestAtPositions(env: Env, rows: seq<Row>, f: Filter)
    ensures At(Newest(env, rows, f), rows, Positions(env, rows, f))
  {
    if rows != [] {
      var n := |rows| - 1;
      NewestAtPositions(env, rows[..n], f);
      AtLonger(Newest(env, rows[..n], f), rows, n, Positions(env, rows[..n], f));
      if Matches(env, rows[n], f) {
        AtCons(Newest(env, rows[..n], f), rows, n, Positions(env, rows[..n], f));
      } else {
        assert Picked(env, rows[n], f) + Newest(env, rows[..n], f) == Newest(env, rows[..n], f);
      }
    }
  }

  lemma AtLonger(found: seq<Row>, rows: seq<Row>, n: nat, ps: seq<nat>)
    requires n <= |rows| && At(found, rows[..n], ps)
    ensures At(found, rows, ps)
  {
  }

  lemma AtCons(found: seq<Row>, rows: seq<Row>, n: nat, ps: seq<nat>)
    requires n < |rows| && At(found, rows, ps)
    ensures At([rows[n]] + found, rows, [n] + ps)
  {
  }

  /** The rows selected are exactly the matching ones, each as often as it was saved, strictly
      from the newest save to the oldest. */
  lemma NewestIsExact(env: Env, rows: seq<Row>, f: Filter)
    ensures var ps := Positions(env, rows, f);
      && At(Newest(env, rows, f), rows, ps)
      && Descending(ps, |rows|)
      && (forall i :: 0 <= i < |rows| ==> (Matches(env, rows[i], f) <==> i in ps))
  {
    NewestAtPositions(env, rows, f);
    PositionsDescend(env, rows, f);
    forall i | 0 <= i < |rows|
      ensures Matches(env, rows[i], f) <==> i in Positions(env, rows, f)
    {
      PositionsComplete(env, rows, f, i);
    }
  }

  /** Without durable reads the count is the number of matching saves. */
  lemma CountIsMatches(env: Env, store: Store, f: Filter, rows: seq<Row>)
    requires store.listing == Some(rows) && store.counter(f).None? && store.finder(f, None).None?
    ensures CountOf(env, store, f) == Ok(|Positions(env, rows, f)|)
  {
    NewestAtPositions(env, rows, f);
  }

  predicate Earlier(since: Option<int>, m: int) { since.None? || since.value <= m }

  predicate Later(until: Option<int>, m: int) { until.None? || m <= until.value }

  /** The undated rows the unbounded window, and no other, picks up. */
  function UndatedCount(env: Env, rows: seq<Row>, f: Filter): nat {
    if rows == [] then 0
    else
      var last := rows[|rows| - 1];
      UndatedCount(env, rows[..|rows| - 1], f) +
      (if last.decidedAt.None? && Matches(env, last, f) then 1 else 0)
  }

  /** Windows are half open, so adjacent windows lose and double nothing: the count over
      [since, until) is the sum over its two parts, and of the undated rows if unbounded. */
  lemma {:induction false} AdjacentWindowsAdd(env: Env, rows: seq<Row>, f: Filter, m: int)
    requires Earlier(f.since, m) && Later(f.until, m)
    ensures |Newest(env, rows, f)|
         == |Newest(env, rows, f.(until := Some(m)))| + |Newest(env, rows, f.(since := Some(m)))|
            + UndatedCount(env, rows, f)
    decreases |rows|
  {
    if rows != [] {
      AdjacentWindowsAdd(env, rows[..|rows| - 1], f, m);
    }
  }

  /** Only the doubly unbounded window can hold undated rows. */
  lemma {:induction false} BoundedHasNoUndated(env: Env, rows: seq<Row>, f: Filter)
    requires f.since.Some? || f.until.Some?
    ensures UndatedCount(env, rows, f) == 0
    decreases |rows|
  {
    if rows != [] {
      BoundedHasNoUndated(env, rows[..|rows| - 1], f);
    }
  }

  // ----- waiting on a human -----------------------------------------------------------------

  /** Which of these ids a human has sealed; an unreadable source answers with the empty set. */
  type Resolutions = seq<string> -> set<string>

  function Ids(rows: seq<Row>): (r: seq<string>)
    ensures |r| == |rows| && forall i :: 0 <= i < |rows| ==> r[i] == rows[i].id
  {
    seq(|rows|, i requires 0 <= i < |rows| => rows[i].id)
  }

  function Unresolved(rows: seq<Row>, resolved: set<string>): seq<Row> {
    if rows == [] then []
    else
      Unresolved(rows[..|rows| - 1], resolved) +
      (if rows[|rows| - 1].id in resolved then [] else [rows[|rows| - 1]])
  }

  function WaitingFilter(tenant: string, since: Option<int>): Filter {
    Filter(tenant, Some("ABSTAIN"), since, None)
  }

  function WaitingOf(env: Env, store: Store, tenant: string, resolutions: Resolutions, since: Option<int>)
    : Result<seq<Row>, Error>
  {
    match RowsOf(env, store, WaitingFilter(tenant, since), None)
    case Err(e) => Err(e)
    case Ok(rows) => Ok(Unresolved(rows, resolutions(Ids(rows))))
  }

  method HeldWaiting(env: Env, store: Store, tenant: string, resolutions: Resolutions, since: Option<int>)
    returns (r: Result<seq<Row>, Error>)
    ensures r == WaitingOf(env, store, tenant, resolutions, since)
  {
    var found := MatchingRows(env, store, WaitingFilter(tenant, since), None);
    if found.Err? {
      return Err(found.error);
    }
    var rows := found.value;
    var resolved := resolutions(Ids(rows));
    var waiting: seq<Row> := [];
    for i := 0 to |rows|
      invariant waiting == Unresolved(rows[..i], resolved)
    {
      assert rows[..i + 1][..i] == rows[..i];
      if rows[i].id !in resolved {
        waiting := waiting + [rows[i]];
      }
    }
    assert rows[..|rows|] == rows;
    return Ok(waiting);
  }

  lemma {:induction false} UnresolvedIsExact(rows: seq<Row>, resolved: set<string>)
    ensures forall r :: r in Unresolved(rows, resolved) <==> r in rows && r.id !in resolved
  {
    if rows != [] {
      var n := |rows| - 1;
      UnresolvedIsExact(rows[..n], resolved);
      assert rows == rows[..n] + [rows[n]];
    }
  }

  /** What waits, over a listed store: held rows in the window that this tenant may see and no
      human has sealed, and all of them. */
  lemma WaitingIsExact(
    env: Env, store: Store, tenant: string, resolutions: Resolutions, since: Option<int>, rows: seq<Row>, r: Row)
    requires store.listing == Some(rows) && store.finder(WaitingFilter(tenant, since), None).None?
    ensures var w := WaitingOf(env, store, tenant, resolutions, since);
      && w.Ok?
      && (r in w.value <==>
            && r in rows && Owned(env, r, tenant) && r.verdict == Some("ABSTAIN")
            && (since != None ==> r.decidedAt != None && since.value <= r.decidedAt.value)
            && r.id !in resolutions(Ids(Newest(env, rows, WaitingFilter(tenant, since)))))
  {
    var f := WaitingFilter(tenant, since);
    var found := Newest(env, rows, f);
    MatchesIs(env, r, f);
    NewestIsExact(env, rows, f);
    UnresolvedIsExact(found, resolutions(Ids(found)));
    if r in found {
      var k :| 0 <= k < |found| && found[k] == r;
      assert rows[Positions(env, rows, f)[k]] == r;
    }
    if r in rows && Matches(env, r, f) {
      var i :| 0 <= i < |rows| && rows[i] == r;
      var k :| 0 <= k < |found| && Positions(env, rows, f)[k] == i;
      assert found[k] == r;
    }
  }

  /** A read fault never hides a hold: with nothing known resolved, every candidate waits. */
  lemma {:induction false} UnresolvedOfNone(rows: seq<Row>)
    ensures Unresolved(rows, {}) == rows
  {
    if rows != [] {
      UnresolvedOfNone(rows[..|rows| - 1]);
      assert rows == rows[..|rows| - 1] + [rows[|rows| - 1]];
    }
  }

  // ----- spoken names -----------------------------------------------------------------------

  const UNNAMED := "an unnamed agent"

  function Or(s: Option<string>, otherwise: string): string {
    if s.Some? && s.value != "" then s.value else otherwise
  }

  function Join(names: seq<string>, sep: string): string {
    if names == [] then ""
    else if |names| == 1 then names[0]
    else Join(names[..|names| - 1], sep) + sep + names[|names| - 1]
  }

  /** Up to three names, then the spoken remainder. */
  function NamesOf(env: Env, agents: seq<Option<string>>): (names: seq<string>)
    ensures |names| == if |agents| <= 3 then |agents| else 4
  {
    var shown := if |agents| <= 3 then agents else agents[..3];
    seq(|shown|, i requires 0 <= i < |shown| => Or(shown[i], UNNAMED)) +
    (if |agents| > 3 then [env.humanize(|agents| - 3) + " more"] else [])
  }

  function SpokenNames(env: Env, agents: seq<Option<string>>): string {
    if agents == [] then "none"
    else
      var names := NamesOf(env, agents);
      if |names| == 1 then names[0]
      else if |names| == 2 then names[0] + " and " + names[1]
      else Join(names[..|names| - 1], ", ") + ", and " + names[|names| - 1]
  }

  function Agents(rows: seq<Row>): seq<Option<string>> { seq(|rows|, i requires 0 <= i < |rows| => rows[i].agent) }

  // ----- minting ----------------------------------------------------------------------------

  /** A window as resolved: its bounds and the name that rides into provenance. */
  datatype Window = Window(since: Option<int>, until: Option<int>, name: Option<string>)

  function TenantOf(env: Env, tenant: Option<string>): Result<string, Error> {
    if tenant.Some? && env.strip(tenant.value) != "" then Ok(env.strip(tenant.value)) else Err(TenantRequired)
  }

  function NormalizeVerdict(env: Env, verdict: Option<string>): Result<Option<string>, Error> {
    match verdict
    case None => Ok(None)
    case Some(v) =>
      var key := env.upper(env.strip(v));
      if key == "HELD" || key == "ABSTAIN" then Ok(Some("ABSTAIN"))
      else if key == "PERMIT" || key == "FORBID" then Ok(Some(key))
      else Err(UnknownVerdict)
  }

  function CountExhibit(
    env: Env, tool: string, unit: string, tenant: string, verdict: Option<string>, w: Window, n: int): Exhibit
  {
    Exhibit("e1", "count", IntValue(n), env.humanize(n), Some(unit),
      Query(tool, tenant, verdict, w.since, w.until, w.name, n == 0, n == 1), None, env.now, [])
  }

  method CountDecisions(env: Env, store: Store, tenant: Option<string>, verdict: Option<string>, w: Window)
    returns (r: Result<Exhibit, Error>)
    ensures r == CountAnswer(env, store, tenant, verdict, w)
  {
    var t := TenantOf(env, tenant);
    if t.Err? {
      return Err(t.error);
    }
    var v := NormalizeVerdict(env, verdict);
    if v.Err? {
      return Err(v.error);
    }
    var n := CountRows(env, store, Filter(env.fold(t.value), v.value, w.since, w.until));
    if n.Err? {
      return Err(n.error);
    }
    return Ok(CountExhibit(env, "count_decisions", "decisions", t.value, v.value, w, n.value));
  }

  function CountAnswer(env: Env, store: Store, tenant: Option<string>, verdict: Option<string>, w: Window)
    : Result<Exhibit, Error>
  {
    match (TenantOf(env, tenant), NormalizeVerdict(env, verdict))
    case (Err(e), _) => Err(e)
    case (_, Err(e)) => Err(e)
    case (Ok(t), Ok(v)) =>
      match CountOf(env, store, Filter(env.fold(t), v, w.since, w.until))
      case Err(e) => Err(e)
      case Ok(n) => Ok(CountExhibit(env, "count_decisions", "decisions", t, v, w, n))
  }

  method CountHeldWaiting(env: Env, store: Store, tenant: Option<string>, resolutions: Resolutions, since: Option<int>)
    returns (r: Result<Exhibit, Error>)
    ensures r == HeldCountAnswer(env, store, tenant, resolutions, since)
  {
    var t := TenantOf(env, tenant);
    if t.Err? {
      return Err(t.error);
    }
    var waiting := HeldWaiting(env, store, env.fold(t.value), resolutions, since);
    if waiting.Err? {
      return Err(waiting.error);
    }
    return Ok(CountExhibit(env, "count_held_waiting", "decisions", t.value, Some("ABSTAIN"), Window(since, None, None), |waiting.value|));
  }

  function HeldCountAnswer(env: Env, store: Store, tenant: Option<string>, resolutions: Resolutions, since: Option<int>)
    : Result<Exhibit, Error>
  {
    match TenantOf(env, tenant)
    case Err(e) => Err(e)
    case Ok(t) =>
      match WaitingOf(env, store, env.fold(t), resolutions, since)
      case Err(e) => Err(e)
      case Ok(waiting) =>
        Ok(CountExhibit(env, "count_held_waiting", "decisions", t, Some("ABSTAIN"), Window(since, None, None), |waiting|))
  }

  function ListExhibit(
    env: Env, tool: string, unit: string, tenant: string, verdict: Option<string>, w: Window, size: nat,
    agents: seq<Option<string>>, isZero: bool, isOne: bool, rows: seq<string>): Exhibit
  {
    Exhibit("e1", "list", ListValue(size), SpokenNames(env, agents), Some(unit),
      Query(tool, tenant, verdict, w.since, w.until, w.name, isZero, isOne), None, env.now, rows)
  }

  function Prefix<X>(xs: seq<X>, n: nat): (r: seq<X>)
    ensures |r| == (if |xs| <= n then |xs| else n) && r <= xs
  {
    if |xs| <= n then xs else xs[..n]
  }

  /** The list says no more than it selected; zero-ness is not disclosed. */
  function ListAnswer(
    env: Env, store: Store, tenant: Option<string>, verdict: Option<string>, since: Option<int>, until: Option<int>,
    limit: int): Result<Exhibit, Error>
  {
    match (TenantOf(env, tenant), NormalizeVerdict(env, verdict))
    case (Err(e), _) => Err(e)
    case (_, Err(e)) => Err(e)
    case (Ok(t), Ok(v)) =>
      if limit < 0 then Err(NegativeLimit)
      else
        match RowsOf(env, store, Filter(env.fold(t), v, since, until), Some(limit))
        case Err(e) => Err(e)
        case Ok(rows) =>
          var selected := Prefix(rows, limit);
          Ok(ListExhibit(env, "list_decisions", "decisions", t, v, Window(since, until, None), |selected|,
            Agents(selected), false, false, []))
  }

  /** The names, and zero-ness, are over everything that waits; only value and rows are capped. */
  function HeldListAnswer(
    env: Env, store: Store, tenant: Option<string>, resolutions: Resolutions, since: Option<int>, limit: int)
    : Result<Exhibit, Error>
  {
    match TenantOf(env, tenant)
    case Err(e) => Err(e)
    case Ok(t) =>
      if limit < 0 then Err(NegativeLimit)
      else
        match WaitingOf(env, store, env.fold(t), resolutions, since)
        case Err(e) => Err(e)
        case Ok(waiting) =>
          Ok(ListExhibit(env, "list_held_waiting", "decisions", t, Some("ABSTAIN"), Window(since, None, None),
            |Prefix(waiting, limit)|, Agents(waiting), |waiting| == 0, |waiting| == 1, Ids(Prefix(waiting, 25))))
  }

  /** The hold wires cannot disagree: over one store the count and the list succeed or fail
      together; the list is empty, or single, exactly when the count says so; its value and rows
      are the capped count, and the rows lead with the newest holds. */
  lemma HoldWiresAgree(
    env: Env, store: Store, tenant: Option<string>, resolutions: Resolutions, since: Option<int>, limit: nat)
    ensures var count, list := HeldCountAnswer(env, store, tenant, resolutions, since),
                               HeldListAnswer(env, store, tenant, resolutions, since, limit);
      && (count.Ok? <==> list.Ok?)
      && (count.Err? ==> count.error == list.error)
      && (count.Ok? ==>
            && count.value.value.IntValue? && count.value.value.n >= 0
            && list.value.value == ListValue(Least(count.value.value.n, limit))
            && list.value.query.isZero == count.value.query.isZero == (count.value.value.n == 0)
            && list.value.query.isOne == count.value.query.isOne == (count.value.value.n == 1)
            && |list.value.rows| == Least(count.value.value.n, 25)
            && var waiting := WaitingOf(env, store, env.fold(TenantOf(env, tenant).value), resolutions, since).value;
               list.value.rows <= Ids(waiting))
  {
    match TenantOf(env, tenant) {
      case Err(_) =>
      case Ok(t) =>
        var waiting := WaitingOf(env, store, env.fold(t), resolutions, since);
        if waiting.Ok? {
          assert Ids(Prefix(waiting.value, 25)) <= Ids(waiting.value);
        }
    }
  }

  function Least(a: int, b: nat): (m: nat)
    requires a >= 0
  {
    if a <= b then a else b
  }

  /** The spoken remainder never undercounts: up to three agents are named, and what is said to
      be left is exactly the rest. */
  lemma RemainderIsHonest(env: Env, agents: seq<Option<string>>)
    ensures var names := NamesOf(env, agents);
      && (forall i :: 0 <= i < Least(|agents|, 3) ==> names[i] == Or(agents[i], UNNAMED))
      && (|agents| <= 3 ==> |names| == |agents|)
      && (|agents| > 3 ==> |names| == 4 && names[3] == env.humanize(|agents| - Least(|agents|, 3)) + " more")
  {
  }

  function RecordExhibit(env: Env, tenant: string, row: Row): Exhibit {
    Exhibit("e1", "record", ListValue(7),
      Or(row.verdict, "a decision") + " for " + Or(row.action, "an action") + " by " + Or(row.agent, UNNAMED),
      Some("decision"),
      Query("get_decision_record", tenant, row.verdict, None, None, None, false, false), row.anchor, env.now, [])
  }

  /** By id through `get`, or the latest visible row of the wanted verdict. */
  function RecordAnswer(
    env: Env, store: Store, get: string -> Option<Row>, id: Option<string>, tenant: Option<string>,
    verdict: Option<string>): Result<Exhibit, Error>
  {
    match (TenantOf(env, tenant), NormalizeVerdict(env, verdict))
    case (Err(e), _) => Err(e)
    case (_, Err(e)) => Err(e)
    case (Ok(t), Ok(v)) =>
      match id
      case None =>
        (match RowsOf(env, store, Filter(env.fold(t), v, None, None), Some(1))
         case Err(e) => Err(e)
         case Ok(rows) => if rows == [] then Err(NotFound) else Ok(RecordExhibit(env, t, rows[0])))
      case Some(key) =>
        (match get(key)
         case None => Err(NotFound)
         case Some(row) =>
           if TenantVisible(env, row, env.fold(t)) && (v.None? || row.verdict == v) then Ok(RecordExhibit(env, t, row))
           else Err(NotFound))
  }

  /** The filter of the latest-record read. */
  function LatestFilter(env: Env, tenant: string, verdict: Option<string>): Filter {
    Filter(env.fold(env.strip(tenant)), verdict, None, None)
  }

  /** Tenant isolation and the verdict floor: a record by id, or from the listing, is one this
      tenant may see and of the verdict asked for; where a durable read answers, it is that
      read's first row for exactly this tenant and verdict. */
  lemma RecordIsVisible(
    env: Env, store: Store, get: string -> Option<Row>, id: Option<string>, tenant: string, verdict: Option<string>)
    requires RecordAnswer(env, store, get, id, Some(tenant), verdict).Ok?
    ensures NormalizeVerdict(env, verdict).Ok?
    ensures exists row ::
      && RecordAnswer(env, store, get, id, Some(tenant), verdict) == Ok(RecordExhibit(env, env.strip(tenant), row))
      && RecordRow(env, store, get, id, tenant, NormalizeVerdict(env, verdict).value, row)
  {
    var v := NormalizeVerdict(env, verdict).value;
    var f := LatestFilter(env, tenant, v);
    if id.Some? {
      var row := get(id.value).value;
      assert RecordRow(env, store, get, id, tenant, v, row);
    } else if store.finder(f, Some(1)).Some? {
      var row := store.finder(f, Some(1)).value[0];
      assert RecordRow(env, store, get, id, tenant, v, row);
    } else {
      var found := Newest(env, store.listing.value, f);
      NewestIsExact(env, store.listing.value, f);
      var row := found[0];
      assert Matches(env, row, f);
      assert RecordRow(env, store, get, id, tenant, v, row);
    }
  }

  /** Where a spoken record comes from. */
  ghost predicate RecordRow(
    env: Env, store: Store, get: string -> Option<Row>, id: Option<string>, tenant: string, v: Option<string>, row: Row)
  {
    match (id, store.finder(LatestFilter(env, tenant, v), Some(1)))
    case (Some(key), _) => get(key) == Some(row) && MayBeSpoken(env, row, tenant, v)
    case (None, Some(rows)) => rows != [] && row == rows[0]
    case (None, None) =>
      store.listing.Some? && row in store.listing.value && MayBeSpoken(env, row, tenant, v)
  }

  predicate MayBeSpoken(env: Env, row: Row, tenant: string, v: Option<string>) {
    TenantVisible(env, row, env.fold(env.strip(tenant))) && (v.None? || row.verdict == v)
  }

  // ----- the roster -------------------------------------------------------------------------

  datatype Agent = Agent(tenant: Option<string>, status: string, name: string)

  predicate Runs(env: Env, a: Agent, tenant: string) {
    a.tenant == Some(tenant) && env.upper(a.status) != "SLEEPING" && env.upper(a.status) != "REVOKED"
  }

  /** Running agents of exactly this tenant, in registry order. */
  function Running(env: Env, agents: seq<Agent>, tenant: string): seq<Agent> {
    if agents == [] then []
    else
      var a := agents[|agents| - 1];
      Running(env, agents[..|agents| - 1], tenant) + (if Runs(env, a, tenant) then [a] else [])
  }

  method RunningAgents(env: Env, agents: seq<Agent>, tenant: string) returns (rows: seq<Agent>)
    ensures rows == Running(env, agents, tenant)
  {
    rows := [];
    for i := 0 to |agents|
      invariant rows == Running(env, agents[..i], tenant)
    {
      assert agents[..i + 1][..i] == agents[..i];
      var a := agents[i];
      if a.tenant != Some(tenant) {
        continue;
      }
      if env.upper(a.status) in {"SLEEPING", "REVOKED"} {
        continue;
      }
      rows := rows + [a];
    }
    assert agents[..|agents|] == agents;
  }

  const ALL_TIME := Window(None, None, None)

  function AgentCountAnswer(env: Env, agents: seq<Agent>, tenant: Option<string>): Result<Exhibit, Error> {
    match TenantOf(env, tenant)
    case Err(e) => Err(e)
    case Ok(t) => Ok(CountExhibit(env, "count_agents", "agents", t, None, ALL_TIME, |Running(env, agents, t)|))
  }

  function AgentNames(agents: seq<Agent>): seq<Option<string>> {
    seq(|agents|, i requires 0 <= i < |agents| => Some(agents[i].name))
  }

  function AgentListAnswer(env: Env, agents: seq<Agent>, tenant: Option<string>, limit: int): Result<Exhibit, Error> {
    match TenantOf(env, tenant)
    case Err(e) => Err(e)
    case Ok(t) =>
      if limit < 0 then Err(NegativeLimit)
      else
        var running := Prefix(Running(env, agents, t), limit);
        Ok(ListExhibit(env, "list_agents", "agents", t, None, ALL_TIME, |running|, AgentNames(running), false, false, []))
  }

  // ----- tenant isolation -----------------------------------------------------------------

  /** The tenant a row is stamped with, as compared: unstamped rows are shared. */
  function Stamp(env: Env, row: Row): string {
    env.fold(env.strip(if row.tenant == None || row.tenant == Some("") then "default" else row.tenant.value))
  }

  /** The row may be seen by the tenant: its own, or shared. */
  predicate Owned(env: Env, row: Row, tenant: string) { Stamp(env, row) == tenant || Stamp(env, row) == "default" }

  function OwnRows(env: Env, rows: seq<Row>, tenant: string): seq<Row> {
    if rows == [] then []
    else
      OwnRows(env, rows[..|rows| - 1], tenant) +
      (if Owned(env, rows[|rows| - 1], tenant) then [rows[|rows| - 1]] else [])
  }

  /** What a filter selects, in the row's own fields. */
  lemma MatchesIs(env: Env, row: Row, f: Filter)
    ensures Matches(env, row, f)
       <==> && Owned(env, row, f.tenant)
            && (f.verdict != None ==> row.verdict == f.verdict)
            && (row.decidedAt == None ==> f.since == None && f.until == None)
            && (row.decidedAt != None && f.since != None ==> f.since.value <= row.decidedAt.value)
            && (row.decidedAt != None && f.until != None ==> row.decidedAt.value < f.until.value)
  {
  }

  lemma NewestPush(env: Env, rows: seq<Row>, row: Row, f: Filter)
    ensures Newest(env, rows + [row], f) == Picked(env, row, f) + Newest(env, rows, f)
  {
    assert (rows + [row])[..|rows|] == rows;
  }

  /** Tenant isolation: rows of other tenants might as well not be there. Whatever is selected,
      counted or listed for a tenant is the same with them and without them. */
  lemma {:induction false} ForeignRowsDoNotMatter(env: Env, rows: seq<Row>, f: Filter)
    ensures Newest(env, rows, f) == Newest(env, OwnRows(env, rows, f.tenant), f)
    decreases |rows|
  {
    if rows != [] {
      var most, last := rows[..|rows| - 1], rows[|rows| - 1];
      ForeignRowsDoNotMatter(env, most, f);
      MatchesIs(env, last, f);
      assert rows == most + [last];
      NewestPush(env, most, last, f);
      if Owned(env, last, f.tenant) {
        NewestPush(env, OwnRows(env, most, f.tenant), last, f);
      } else {
        assert Picked(env, last, f) + Newest(env, most, f) == Newest(env, most, f);
        assert OwnRows(env, most, f.tenant) + [] == OwnRows(env, most, f.tenant);
      }
    }
  }

  /** A store that lists only the tenant's own and shared rows. */
  function OwnStore(env: Env, store: Store, tenant: string): Store {
    match store.listing
    case None => store
    case Some(rows) => store.(listing := Some(OwnRows(env, rows, tenant)))
  }

  /** So no count, list or latest record of a listed store depends on another tenant's rows. */
  lemma AnswersAreIsolated(env: Env, store: Store, f: Filter, limit: Option<nat>)
    ensures RowsOf(env, store, f, limit) == RowsOf(env, OwnStore(env, store, f.tenant), f, limit)
    ensures CountOf(env, store, f) == CountOf(env, OwnStore(env, store, f.tenant), f)
  {
    if store.listing.Some? {
      ForeignRowsDoNotMatter(env, store.listing.value, f);
    }
  }

  /** The verdict words a caller may use: the three the store holds, and HELD for ABSTAIN. */
  lemma VerdictAsked(env: Env, v: string)
    ensures var key := env.upper(env.strip(v));
      && (NormalizeVerdict(env, Some(v)).Ok? <==> key == "HELD" || key == "ABSTAIN" || key == "PERMIT" || key == "FORBID")
      && (NormalizeVerdict(env, Some(v)).Ok? && key != "HELD" ==> NormalizeVerdict(env, Some(v)).value == Some(key))
      && (key == "HELD" ==> NormalizeVerdict(env, Some(v)) == Ok(Some("ABSTAIN")))
  {
  }

  // ----- what lists and rosters hold ------------------------------------------------------

  /** Over a listed store a list exhibit names the newest matching rows, as many as the limit. */
  lemma ListSaysNewest(
    env: Env, store: Store, tenant: string, v: Option<string>, verdict: Option<string>, since: Option<int>, until: Option<int>,
    limit: nat, rows: seq<Row>)
    requires store.listing == Some(rows) && env.strip(tenant) != "" && NormalizeVerdict(env, verdict) == Ok(v)
    requires store.finder(Filter(env.fold(env.strip(tenant)), v, since, until), Some(limit)).None?
    ensures var f := Filter(env.fold(env.strip(tenant)), v, since, until);
      var e := ListAnswer(env, store, Some(tenant), verdict, since, until, limit);
      && e.Ok?
      && e.value.value == ListValue(Least(|Positions(env, rows, f)|, limit))
      && exists named: seq<Row> ::
           && named <= Newest(env, rows, f) && |named| == Least(|Positions(env, rows, f)|, limit)
           && e.value.spoken == SpokenNames(env, Agents(named))
  {
    var f := Filter(env.fold(env.strip(tenant)), v, since, until);
    var found := Newest(env, rows, f);
    NewestAtPositions(env, rows, f);
    var named := Prefix(Limited(found, Some(limit)), limit);
    assert named <= found && |named| == Least(|Positions(env, rows, f)|, limit);
  }

  /** How names are joined for the ear. */
  lemma NamesAreJoined(env: Env, agents: seq<Option<string>>)
    ensures var names := NamesOf(env, agents);
      && (agents == [] ==> SpokenNames(env, agents) == "none")
      && (|names| == 1 ==> SpokenNames(env, agents) == names[0])
      && (|names| == 2 ==> SpokenNames(env, agents) == names[0] + " and " + names[1])
      && (|names| == 3 ==> SpokenNames(env, agents) == names[0] + ", " + names[1] + ", and " + names[2])
      && (|names| == 4 ==> SpokenNames(env, agents) == names[0] + ", " + names[1] + ", " + names[2] + ", and " + names[3])
  {
    var names := NamesOf(env, agents);
    if |names| == 3 {
      JoinTwo(names[0], names[1], ", ");
      assert names[..2] == [names[0], names[1]];
    } else if |names| == 4 {
      JoinThree(names[0], names[1], names[2], ", ");
      assert names[..3] == [names[0], names[1], names[2]];
    }
  }

  lemma JoinTwo(a: string, b: string, sep: string)
    ensures Join([a, b], sep) == a + sep + b
  {
    assert [a, b][..1] == [a];
  }

  lemma JoinThree(a: string, b: string, c: string, sep: string)
    ensures Join([a, b, c], sep) == a + sep + b + sep + c
  {
    JoinTwo(a, b, sep);
    assert [a, b, c][..2] == [a, b];
  }

  /** The roster: exactly the agents of this very tenant whose status is neither SLEEPING nor
      REVOKED in any case. */
  lemma {:induction false} RunningIsExact(env: Env, agents: seq<Agent>, tenant: string, a: Agent)
    ensures a in Running(env, agents, tenant)
       <==> a in agents && a.tenant == Some(tenant) && env.upper(a.status) !in {"SLEEPING", "REVOKED"}
  {
    if agents != [] {
      RunningIsExact(env, agents[..|agents| - 1], tenant, a);
      assert agents == agents[..|agents| - 1] + [agents[|agents| - 1]];
    }
  }
}
