/**
 The import-graph audit: building the edge maps, reachability by a queue with duplicates,
 the classification's branch structure, and the self-audit's independent second search.

 A module name is its sequence of dotted parts, so a parent package is a proper prefix.
 */
module Wiring {
  type Name = seq<string>
  type Edges = map<Name, set<Name>>

  /** Every module with the internal imports it states. */
  type Modules = map<Name, seq<Name>>

  function Successors(edges: Edges, n: Name): set<Name> {
    if n in edges then edges[n] else {}
  }

  // ----- building the graph -------------------------------------------------------------

  /** What an import names: the module itself, or the package a symbol is taken from. */
  function Normalized(imp: Name, all: set<Name>): set<Name> {
    var parent := if |imp| > 1 then imp[..|imp| - 1] else imp;
    set m | m in {imp, parent} && m in all
  }

  /** Packages whose initialisers run on the way to an import. */
  function Packages(imp: Name, all: set<Name>): set<Name> {
    set i | 1 <= i < |imp| && imp[..i] in all :: imp[..i]
  }

  function Targets(m: Name, imports: seq<Name>, all: set<Name>): set<Name> {
    if imports == [] then {}
    else
      var imp := imports[|imports| - 1];
      Targets(m, imports[..|imports| - 1], all) + (Normalized(imp, all) + Packages(imp, all) - {m})
  }

  /** The edge relation a module set defines. */
  ghost predicate IsEdge(mods: Modules, a: Name, b: Name) {
    a in mods && b in Targets(a, mods[a], mods.Keys)
  }

  /** Fill both edge dictionaries, one module and one import at a time. */
  method BuildGraph(mods: Modules) returns (edges: Edges, rev: Edges)
    ensures forall a, b :: b in Successors(edges, a) <==> IsEdge(mods, a, b)
    ensures forall a, b :: a in Successors(rev, b) <==> IsEdge(mods, a, b)
    ensures edges.Keys <= mods.Keys
  {
    edges, rev := map[], map[];
    var todo := mods.Keys;
    while todo != {}
      invariant todo <= mods.Keys && edges.Keys <= mods.Keys - todo
      invariant forall a, b :: b in Successors(edges, a) <==> a !in todo && IsEdge(mods, a, b)
      invariant forall a, b :: a in Successors(rev, b) <==> a !in todo && IsEdge(mods, a, b)
    {
      var m :| m in todo;
      var targets: set<Name> := {};
      for i := 0 to |mods[m]|
        invariant targets == Targets(m, mods[m][..i], mods.Keys)
      {
        var imp := mods[m][i];
        assert mods[m][..i + 1][..i] == mods[m][..i];
        targets := targets + (Normalized(imp, mods.Keys) + Packages(imp, mods.Keys) - {m});
      }
      assert mods[m][..|mods[m]|] == mods[m];
      edges := edges[m := targets];
      rev := AddReverse(rev, m, targets);
      todo := todo - {m};
    }
  }

  method AddReverse(rev: Edges, m: Name, targets: set<Name>) returns (out: Edges)
    ensures forall a, b :: a in Successors(out, b) <==> a in Successors(rev, b) || (a == m && b in targets)
  {
    out := rev;
    var todo := targets;
    while todo != {}
      invariant todo <= targets
      invariant forall a, b :: a in Successors(out, b) <==> a in Successors(rev, b) || (a == m && b in targets - todo)
    {
      var t :| t in todo;
      ghost var before := out;
      out := out[t := Successors(out, t) + {m}];
      assert forall b :: Successors(out, b) == if b == t then Successors(before, b) + {m} else Successors(before, b);
      todo := todo - {t};
    }
  }

  // ----- reachability -------------------------------------------------------------------

  ghost predicate Closed(edges: Edges, s: set<Name>) {
    forall a, b :: a in s && b in Successors(edges, a) ==> b in s
  }

  /** Every node mentioned by the graph or the seeds. */
  function Universe(edges: Edges, seeds: seq<Name>): set<Name> {
    (set s | s in seeds) + (set a, b | a in edges && b in edges[a] :: b)
  }

  function NonEmpty(seeds: seq<Name>): seq<Name> {
    if seeds == [] then []
    else NonEmpty(seeds[..|seeds| - 1]) + (if seeds[|seeds| - 1] == [] then [] else [seeds[|seeds| - 1]])
  }

  lemma {:induction false} NonEmptyKeeps(seeds: seq<Name>, s: Name)
    ensures s in NonEmpty(seeds) <==> s in seeds && s != []
  {
    if seeds != [] {
      NonEmptyKeeps(seeds[..|seeds| - 1], s);
      assert seeds == seeds[..|seeds| - 1] + [seeds[|seeds| - 1]];
    }
  }

  /** Every node of s is reached by edges from a seed, in a chain that stays in s. */
  ghost predicate Least(edges: Edges, seeds: seq<Name>, s: set<Name>) {
    forall c: set<Name> :: Closed(edges, c) && (forall n :: n in seeds && n != [] ==> n in c) ==> s <= c
  }

  method Enqueue(q: seq<Name>, succ: set<Name>, seen: set<Name>) returns (out: seq<Name>)
    ensures forall n :: n in out <==> n in q || (n in succ && n !in seen)
  {
    out := q;
    var todo := succ;
    while todo != {}
      invariant todo <= succ
      invariant forall n :: n in out <==> n in q || (n in succ - todo && n !in seen)
    {
      var t :| t in todo;
      if t !in seen {
        out := out + [t];
      }
      todo := todo - {t};
    }
  }

  /** Queue search. Nodes may be queued many times before they are first taken; it ends, with
      the least set that holds the non-empty seeds and is closed under edges. */
  method Reach(edges: Edges, seeds: seq<Name>) returns (seen: set<Name>)
    ensures forall n :: n in seeds && n != [] ==> n in seen
    ensures Closed(edges, seen)
    ensures Least(edges, seeds, seen)
  {
    seen := {};
    var q := NonEmpty(seeds);
    ghost var u := Universe(edges, seeds);
    forall n ensures n in q <==> n in seeds && n != [] {
      NonEmptyKeeps(seeds, n);
    }
    while q != []
      invariant seen <= u && forall n :: n in q ==> n in u
      invariant forall n :: n in seeds && n != [] ==> n in seen || n in q
      invariant forall a, b :: a in seen && b in Successors(edges, a) ==> b in seen || b in q
      invariant forall c: set<Name> :: Closed(edges, c) && (forall n :: n in seeds && n != [] ==> n in c)
                                  ==> seen <= c && forall n :: n in q ==> n in c
      decreases u - seen, |q|
    {
      var n := q[0];
      ghost var before := q;
      q := q[1..];
      assert before == [n] + q;
      if n in seen {
        continue;
      }
      seen := seen + {n};
      q := Enqueue(q, Successors(edges, n), seen);
    }
  }

  // ----- classification -----------------------------------------------------------------

  datatype Class = CliEntrypoint | Wired | Parked

  predicate IsMain(m: Name) {
    m != [] && EndsWith(m[|m| - 1], "__main__")
  }

  predicate EndsWith(s: string, suffix: string) {
    |s| >= |suffix| && s[|s| - |suffix|..] == suffix
  }

  const APP: Name := ["tex", "main"]

  function Entrypoints(mods: Modules): set<Name> {
    set m | m in mods && (m == APP || IsMain(m))
  }

  /** Label every module. What distinguishes the parked labels is textual and is one class
      here; `defensive` says whether the imported-by-a-wired-module branch was ever taken. */
  method Classify(mods: Modules, entry: seq<Name>)
    returns (labels: map<Name, Class>, edges: Edges, wired: set<Name>, defensive: bool)
    requires (set e | e in entry) == Entrypoints(mods)
    ensures !defensive
    ensures labels.Keys == mods.Keys
    ensures forall a, b :: b in Successors(edges, a) <==> IsEdge(mods, a, b)
    ensures Closed(edges, wired) && Least(edges, entry, wired) && forall e :: e in entry && e != [] ==> e in wired
    ensures forall m :: m in mods ==>
              labels[m] == if m in entry && IsMain(m) then CliEntrypoint else if m in wired then Wired else Parked
  {
    var rev;
    edges, rev := BuildGraph(mods);
    wired := Reach(edges, entry);
    labels, defensive := map[], false;
    var todo := mods.Keys;
    while todo != {}
      invariant todo <= mods.Keys && labels.Keys == mods.Keys - todo && !defensive
      invariant forall m :: m in labels ==>
                  labels[m] == if m in entry && IsMain(m) then CliEntrypoint else if m in wired then Wired else Parked
    {
      var m :| m in todo;
      if m in entry && IsMain(m) {
        labels := labels[m := CliEntrypoint];
      } else if m in wired {
        labels := labels[m := Wired];
      } else {
        var callers := Successors(rev, m);
        if exists c :: c in callers && c in wired {
          defensive := true;
          labels := labels[m := Wired];
        } else {
          labels := labels[m := Parked];
        }
      }
      todo := todo - {m};
    }
  }

  /** The self-audit's second search over the recorded callees reaches every wired module. */
  method SelfAudit(mods: Modules, entry: seq<Name>) returns (notReached: set<Name>)
    requires (set e | e in entry) == Entrypoints(mods)
    ensures notReached == {}
  {
    var labels, edges, wired, defensive := Classify(mods, entry);
    var callees: Edges := map m | m in mods :: Successors(edges, m);
    var seen := Reach(callees, entry);
    notReached := set m | m in labels && labels[m] == Wired && m !in seen;
    assert Closed(edges, seen) by {
      forall a, b | a in seen && b in Successors(edges, a) ensures b in seen {
        assert IsEdge(mods, a, b);
        assert b in Successors(callees, a);
      }
    }
    assert wired <= seen;
  }

  // ----- the least set is what paths reach ----------------------------------------------

  ghost predicate IsPath(edges: Edges, p: seq<Name>) {
    |p| > 0 && forall i :: 0 <= i < |p| - 1 ==> p[i + 1] in Successors(edges, p[i])
  }

  lemma {:induction false} PathStaysIn(edges: Edges, s: set<Name>, p: seq<Name>, k: nat)
    requires Closed(edges, s) && IsPath(edges, p) && p[0] in s && k < |p|
    ensures p[k] in s
  {
    if k > 0 {
      PathStaysIn(edges, s, p, k - 1);
    }
  }

  ghost predicate ReachedByPath(edges: Edges, seeds: seq<Name>, n: Name) {
    exists p :: IsPath(edges, p) && p[0] in seeds && p[0] != [] && p[|p| - 1] == n
  }

  lemma PathExtends(edges: Edges, seeds: seq<Name>, a: Name, b: Name)
    requires ReachedByPath(edges, seeds, a) && b in Successors(edges, a)
    ensures ReachedByPath(edges, seeds, b)
  {
    var p :| IsPath(edges, p) && p[0] in seeds && p[0] != [] && p[|p| - 1] == a;
    var q := p + [b];
    assert IsPath(edges, q) && q[0] == p[0] && q[|q| - 1] == b;
  }

  /** The set the search returns is exactly the nodes some path from a seed reaches. */
  lemma ReachIsPaths(edges: Edges, seeds: seq<Name>, seen: set<Name>, n: Name)
    requires (forall s :: s in seeds && s != [] ==> s in seen) && Closed(edges, seen) && Least(edges, seeds, seen)
    ensures n in seen <==> ReachedByPath(edges, seeds, n)
  {
    if ReachedByPath(edges, seeds, n) {
      var p :| IsPath(edges, p) && p[0] in seeds && p[0] != [] && p[|p| - 1] == n;
      PathStaysIn(edges, seen, p, |p| - 1);
    }
    var c := set m | m in seen && ReachedByPath(edges, seeds, m);
    forall s | s in seeds && s != [] ensures s in c {
      assert IsPath(edges, [s]) && [s][0] == s;
    }
    forall a, b | a in c && b in Successors(edges, a) ensures b in c {
      PathExtends(edges, seeds, a, b);
    }
    assert seen <= c;
  }

  // ----- what an import leads to --------------------------------------------------------

  lemma {:induction false} TargetsArePrefixes(m: Name, imports: seq<Name>, all: set<Name>, b: Name)
    ensures b in Targets(m, imports, all)
       <==> b in all && b != m && exists imp :: imp in imports && b <= imp && (b == [] ==> imp == [])
  {
    if imports != [] {
      var most, last := imports[..|imports| - 1], imports[|imports| - 1];
      TargetsArePrefixes(m, most, all, b);
      assert imports == most + [last];
      PrefixesOf(last, all, b);
      assert last in imports && forall imp :: imp in most ==> imp in imports;
    }
  }

  lemma PrefixesOf(imp: Name, all: set<Name>, b: Name)
    ensures b in Normalized(imp, all) + Packages(imp, all) <==> b in all && b <= imp && (b == [] ==> imp == [])
  {
    if b <= imp {
      assert b == imp[..|b|];
      if |b| == |imp| {
        assert b == imp;
      } else if b != [] && b in all {
        var i := |b|;
        assert imp[..i] in Packages(imp, all);
      }
    }
    if b in Packages(imp, all) {
      var i :| 1 <= i < |imp| && imp[..i] in all && b == imp[..i];
    }
  }

  /** An edge leads to exactly the other modules whose dotted name is a leading part of an import:
      the module itself, the package a symbol is taken from, and every package on the way. */
  lemma EdgesArePrefixes(mods: Modules, a: Name, b: Name)
    ensures IsEdge(mods, a, b)
       <==> a in mods && b in mods && b != a && exists imp :: imp in mods[a] && b <= imp && (b == [] ==> imp == [])
  {
    if a in mods {
      TargetsArePrefixes(a, mods[a], mods.Keys, b);
    }
  }
}
