/** The governance-snapshot repair script and the store's windowed verification. */
module SnapshotRepair {
  import opened Wrappers
  import opened HashChain
  import opened Relink

  /** The columns a snapshot's hash covers, besides its predecessor. */
  datatype Snapshot = Snapshot(capturedAt: string, tenant: string, body: string)

  /** Row keys are snapshot ids; a missing stored hash reads as the empty string. */
  type Table = seq<Row<Snapshot>>

  type SnapshotHash = (Snapshot, Option<Hash>) -> Hash

  /** The hash covers content and predecessor, never the row's own stored columns. */
  function Columned(hash: SnapshotHash): Relink.Recompute<Snapshot> {
    (s: Snapshot, previous: Option<Hash>) => Columns("", previous, hash(s, previous))
  }

  /** Tables as read: snapshots have no digest column. */
  predicate WellRead(rows: Table) {
    forall i :: 0 <= i < |rows| ==> rows[i].cols.digest == ""
  }

  /** Replay oldest to newest; a table that does not start at genesis is refused. */
  method PlanFixes(hash: SnapshotHash, chain: Table) returns (fixes: Option<seq<Update>>)
    requires WellRead(chain)
    ensures fixes.None? <==> chain != [] && chain[0].cols.previous != None
    ensures fixes.Some? ==> fixes.value == Plan(Columned(hash), chain)
  {
    if chain != [] && chain[0].cols.previous != None {
      return None;
    }
    ghost var f := Columned(hash);
    var previous: Option<Hash> := None;
    var out: seq<Update> := [];
    for i := 0 to |chain|
      invariant out == Plan(f, chain[..i]) && previous == TipOf(Relinked(f, chain[..i]))
    {
      PlanStep(f, chain, i);
      var expected := hash(chain[i].content, previous);
      if chain[i].cols.record != expected || chain[i].cols.previous != previous {
        out := out + [Update(chain[i].key, Columns("", previous, expected))];
      }
      previous := Some(expected);
    }
    assert chain[..|chain|] == chain;
    fixes := Some(out);
  }

  datatype Outcome = Nothing | Refused | DryRun | Committed | RolledBack

  /** Plan, write inside one transaction, re-read, and commit only a chain that verifies. */
  method Repair(hash: SnapshotHash, rows: Table, apply: bool) returns (outcome: Outcome, table: Table)
    requires UniqueKeys(rows) && WellRead(rows)
    ensures outcome != RolledBack
    ensures outcome == Committed ==> table == Relinked(Columned(hash), rows)
    ensures outcome != Committed ==> table == rows
    ensures outcome == Committed || outcome == Nothing ==> Verifies(Columned(hash), table)
    ensures outcome == Refused <==> rows != [] && rows[0].cols.previous != None
  {
    ghost var f := Columned(hash);
    NothingToFixIffVerifies(f, rows);
    ApplyPlanRelinks(f, rows);
    RelinkedVerifies(f, rows);
    VerifiesIsFixpoint(f, Relinked(f, rows));
    if rows == [] {
      return Nothing, rows;
    }
    var fixes := PlanFixes(hash, rows);
    if fixes.None? {
      return Refused, rows;
    }
    if fixes.value == [] {
      return Nothing, rows;
    }
    if !apply {
      return DryRun, rows;
    }
    var written := ApplyUpdates(rows, fixes.value);
    RelinkedReads(hash, rows);
    var again := PlanFixes(hash, written);
    if again.None? || again.value != [] {
      return RolledBack, rows;
    }
    return Committed, written;
  }

  lemma {:induction false} RelinkedReads(hash: SnapshotHash, rows: Table)
    ensures WellRead(Relinked(Columned(hash), rows))
    ensures rows != [] ==> Relinked(Columned(hash), rows)[0].cols.previous == None
  {
    if rows != [] {
      RelinkedReads(hash, rows[..|rows| - 1]);
    }
  }

  // ----- the store's windowed verification ----------------------------------------------

  /** The predecessor a window's record must name; the first names its own stored link. */
  function LinkBefore(window: Table, i: nat): Option<Hash>
    requires i < |window|
  {
    if i == 0 then window[0].cols.previous else Some(window[i - 1].cols.record)
  }

  predicate IntactAt(hash: SnapshotHash, window: Table, i: nat)
    requires i < |window|
  {
    window[i].cols == Columned(hash)(window[i].content, LinkBefore(window, i))
  }

  /** A window replayed from its first record's own stored link. */
  ghost predicate WindowIntact(hash: SnapshotHash, window: Table) {
    forall i: nat :: i < |window| ==> IntactAt(hash, window, i)
  }

  lemma IntactPrefix(hash: SnapshotHash, w: Table, k: nat)
    requires k <= |w|
    ensures WindowIntact(hash, w[..k]) <==> forall i: nat :: i < k ==> IntactAt(hash, w, i)
  {
    forall i: nat | i < k ensures IntactAt(hash, w[..k], i) <==> IntactAt(hash, w, i) {
      assert LinkBefore(w[..k], i) == LinkBefore(w, i);
    }
  }

  /** verify_chain over the newest `limit` records; breakAt is the first broken index. */
  method VerifyWindow(hash: SnapshotHash, rows: Table, limit: nat) returns (intact: bool, breakAt: Option<nat>)
    requires WellRead(rows)
    ensures var w := rows[if limit < |rows| then |rows| - limit else 0..];
            && (intact <==> WindowIntact(hash, w))
            && (intact <==> breakAt == None)
            && (breakAt.Some? ==> breakAt.value < |w| && WindowIntact(hash, w[..breakAt.value])
                                  && !WindowIntact(hash, w[..breakAt.value + 1]))
  {
    var w := rows[if limit < |rows| then |rows| - limit else 0..];
    var previous := if w == [] then None else w[0].cols.previous;
    for i := 0 to |w|
      invariant forall k: nat :: k < i ==> IntactAt(hash, w, k)
      invariant i < |w| ==> previous == LinkBefore(w, i)
    {
      var expected := hash(w[i].content, previous);
      if w[i].cols.record != expected || w[i].cols.previous != previous {
        assert !IntactAt(hash, w, i);
        IntactPrefix(hash, w, i);
        IntactPrefix(hash, w, i + 1);
        return false, Some(i);
      }
      previous := Some(w[i].cols.record);
    }
    return true, None;
  }

  /** After a repair every window of every size verifies, not just the whole table. */
  lemma RepairedWindowsIntact(hash: SnapshotHash, rows: Table, from: nat)
    requires Verifies(Columned(hash), rows) && from <= |rows|
    ensures WindowIntact(hash, rows[from..])
  {
    var w := rows[from..];
    forall i: nat | i < |w| ensures IntactAt(hash, w, i) {
      assert w[i] == rows[from + i];
      assert rows[from + i].cols == Columned(hash)(rows[from + i].content, TipOf(rows[..from + i]));
      if i > 0 {
        assert rows[..from + i][from + i - 1] == rows[from + i - 1] == w[i - 1];
      }
    }
  }

  /** And a whole table verifies exactly when it starts at genesis and its full window does. */
  lemma FullWindowIsVerification(hash: SnapshotHash, rows: Table)
    ensures Verifies(Columned(hash), rows)
       <==> WindowIntact(hash, rows) && (rows != [] ==> rows[0].cols.previous == None)
  {
    if Verifies(Columned(hash), rows) {
      RepairedWindowsIntact(hash, rows, 0);
      assert rows[0..] == rows;
      if rows != [] {
        assert rows[..0] == [];
        assert rows[0].cols == Columned(hash)(rows[0].content, TipOf(rows[..0]));
      }
    } else if WindowIntact(hash, rows) && (rows != [] ==> rows[0].cols.previous == None) {
      forall i | 0 <= i < |rows| ensures rows[i].cols == Columned(hash)(rows[i].content, TipOf(rows[..i])) {
        assert IntactAt(hash, rows, i);
        if i > 0 {
          assert rows[..i][i - 1] == rows[i - 1];
        }
      }
    }
  }

  // ----- tamper evidence ------------------------------------------------------------------

  ghost predicate InjectiveSnapshots(hash: SnapshotHash) {
    forall a, p, b, q :: hash(a, p) == hash(b, q) ==> a == b && p == q
  }

  function Contents(rows: Table): (r: seq<Snapshot>)
    ensures |r| == |rows| && forall i :: 0 <= i < |rows| ==> r[i] == rows[i].content
  {
    seq(|rows|, i requires 0 <= i < |rows| => rows[i].content)
  }

  /** Under an injective hash two verifying snapshot tables with one tip hold the same snapshots in
      the same order, with the same hashes. */
  lemma {:induction false} SameTipSameSnapshots(hash: SnapshotHash, a: Table, b: Table)
    requires InjectiveSnapshots(hash) && Verifies(Columned(hash), a) && Verifies(Columned(hash), b) && TipOf(a) == TipOf(b)
    ensures Contents(a) == Contents(b)
    ensures |a| == |b| && forall i :: 0 <= i < |a| ==> a[i].cols == b[i].cols
    decreases |a|
  {
    if a != [] && b != [] {
      var n, m := |a| - 1, |b| - 1;
      assert a[n].cols == Columned(hash)(a[n].content, TipOf(a[..n]));
      assert b[m].cols == Columned(hash)(b[m].content, TipOf(b[..m]));
      VerifiesPrefix(Columned(hash), a, n);
      VerifiesPrefix(Columned(hash), b, m);
      SameTipSameSnapshots(hash, a[..n], b[..m]);
      Extended(a, b, n);
    }
  }

  lemma Extended(a: Table, b: Table, n: nat)
    requires |a| == |b| == n + 1 && Contents(a[..n]) == Contents(b[..n]) && a[n].content == b[n].content
    requires a[n].cols == b[n].cols && forall i :: 0 <= i < n ==> a[..n][i].cols == b[..n][i].cols
    ensures Contents(a) == Contents(b) && forall i :: 0 <= i < |a| ==> a[i].cols == b[i].cols
  {
    forall i | 0 <= i < |a| ensures a[i].content == b[i].content && a[i].cols == b[i].cols {
      if i < n {
        assert a[..n][i] == a[i] && b[..n][i] == b[i];
        assert Contents(a[..n])[i] == Contents(b[..n])[i];
      }
    }
  }
}
