/**
 Re-linking a table of hash-chained rows: recompute each row's hash columns over its
 recomputed predecessor, and write back, by key, the rows whose stored columns differ. Both
 repair scripts are instances.
 */
module Relink {
  import opened Wrappers
  import opened HashChain

  /** A row's hash columns; a table without a digest column leaves it empty. */
  datatype Columns = Columns(digest: Hash, previous: Option<Hash>, record: Hash)

  datatype Row<C> = Row(key: string, content: C, cols: Columns)

  /** The columns a content should have after a given predecessor. */
  type Recompute<!C> = (C, Option<Hash>) -> Columns

  datatype Update = Update(key: string, cols: Columns)

  function TipOf<C>(rows: seq<Row<C>>): Option<Hash> {
    if rows == [] then None else Some(rows[|rows| - 1].cols.record)
  }

  function Fix<C>(f: Recompute<C>, r: Row<C>, previous: Option<Hash>): Row<C> {
    r.(cols := f(r.content, previous))
  }

  /** The table as it should be. */
  function Relinked<C>(f: Recompute<C>, rows: seq<Row<C>>): (out: seq<Row<C>>)
    ensures |out| == |rows|
  {
    if rows == [] then []
    else
      var before := Relinked(f, rows[..|rows| - 1]);
      before + [Fix(f, rows[|rows| - 1], TipOf(before))]
  }

  /** The planned updates: the recomputed columns of every row that differs. */
  function Plan<C(==)>(f: Recompute<C>, rows: seq<Row<C>>): seq<Update> {
    if rows == [] then []
    else
      var last := Relinked(f, rows)[|rows| - 1];
      Plan(f, rows[..|rows| - 1]) + (if last == rows[|rows| - 1] then [] else [Update(last.key, last.cols)])
  }

  ghost predicate UniqueKeys<C>(rows: seq<Row<C>>) {
    forall i, j :: 0 <= i < j < |rows| ==> rows[i].key != rows[j].key
  }

  function ApplyUpdate<C>(rows: seq<Row<C>>, u: Update): (out: seq<Row<C>>)
    ensures |out| == |rows|
    ensures forall i :: 0 <= i < |rows| ==>
              out[i] == if rows[i].key == u.key then rows[i].(cols := u.cols) else rows[i]
  {
    seq(|rows|, i requires 0 <= i < |rows| => if rows[i].key == u.key then rows[i].(cols := u.cols) else rows[i])
  }

  function ApplyUpdates<C>(rows: seq<Row<C>>, us: seq<Update>): (out: seq<Row<C>>)
    ensures |out| == |rows|
  {
    if us == [] then rows else ApplyUpdate(ApplyUpdates(rows, us[..|us| - 1]), us[|us| - 1])
  }

  /** Every row's columns are what its content and its stored predecessor call for. */
  ghost predicate Verifies<C>(f: Recompute<C>, rows: seq<Row<C>>) {
    forall i :: 0 <= i < |rows| ==> rows[i].cols == f(rows[i].content, TipOf(rows[..i]))
  }

  // ----- convergence --------------------------------------------------------------------

  lemma VerifiesExtend<C>(f: Recompute<C>, rows: seq<Row<C>>, r: Row<C>)
    requires Verifies(f, rows) && r.cols == f(r.content, TipOf(rows))
    ensures Verifies(f, rows + [r])
  {
    forall i | 0 <= i < |rows + [r]| ensures (rows + [r])[i].cols == f((rows + [r])[i].content, TipOf((rows + [r])[..i])) {
      assert (rows + [r])[..i] == rows[..i];
      assert i == |rows| ==> rows[..i] == rows;
    }
  }

  lemma VerifiesPrefix<C>(f: Recompute<C>, rows: seq<Row<C>>, k: nat)
    requires Verifies(f, rows) && k <= |rows|
    ensures Verifies(f, rows[..k])
  {
    assert forall i :: 0 <= i < k ==> rows[..k][..i] == rows[..i];
  }

  lemma PlanStep<C>(f: Recompute<C>, rows: seq<Row<C>>, i: nat)
    requires i < |rows|
    ensures var before := Relinked(f, rows[..i]);
            var fixed := Fix(f, rows[i], TipOf(before));
            && Relinked(f, rows[..i + 1]) == before + [fixed]
            && Plan(f, rows[..i + 1]) == Plan(f, rows[..i]) + (if fixed == rows[i] then [] else [Update(fixed.key, fixed.cols)])
    ensures rows[..i + 1] == rows[..i] + [rows[i]]
  {
    assert rows[..i + 1][..i] == rows[..i] && rows[..i + 1][i] == rows[i];
  }

  lemma {:induction false} RelinkedVerifies<C>(f: Recompute<C>, rows: seq<Row<C>>)
    ensures Verifies(f, Relinked(f, rows))
  {
    if rows != [] {
      var before := Relinked(f, rows[..|rows| - 1]);
      RelinkedVerifies(f, rows[..|rows| - 1]);
      VerifiesExtend(f, before, Fix(f, rows[|rows| - 1], TipOf(before)));
    }
  }

  lemma {:induction false} VerifiesIsFixpoint<C>(f: Recompute<C>, rows: seq<Row<C>>)
    requires Verifies(f, rows)
    ensures Relinked(f, rows) == rows && Plan(f, rows) == []
  {
    if rows != [] {
      VerifiesPrefix(f, rows, |rows| - 1);
      VerifiesIsFixpoint(f, rows[..|rows| - 1]);
      assert rows == rows[..|rows| - 1] + [rows[|rows| - 1]];
    }
  }

  lemma {:induction false} EmptyPlanMeansRelinked<C>(f: Recompute<C>, rows: seq<Row<C>>)
    requires Plan(f, rows) == []
    ensures Relinked(f, rows) == rows
  {
    if rows != [] {
      EmptyPlanMeansRelinked(f, rows[..|rows| - 1]);
      assert rows == rows[..|rows| - 1] + [rows[|rows| - 1]];
    }
  }

  /** There is nothing to fix exactly when the table verifies. */
  lemma NothingToFixIffVerifies<C>(f: Recompute<C>, rows: seq<Row<C>>)
    ensures Plan(f, rows) == [] <==> Verifies(f, rows)
  {
    if Plan(f, rows) == [] {
      EmptyPlanMeansRelinked(f, rows);
      RelinkedVerifies(f, rows);
    }
    if Verifies(f, rows) {
      VerifiesIsFixpoint(f, rows);
    }
  }

  /** Only hash columns ever differ between a row and its relinked form. */
  ghost predicate SameContent<C>(a: Row<C>, b: Row<C>) {
    a.key == b.key && a.content == b.content
  }

  lemma {:induction false} RelinkedKeepsContent<C>(f: Recompute<C>, rows: seq<Row<C>>)
    ensures forall i :: 0 <= i < |rows| ==> SameContent(rows[i], Relinked(f, rows)[i])
  {
    if rows != [] {
      RelinkedKeepsContent(f, rows[..|rows| - 1]);
    }
  }

  lemma {:induction false} RelinkedPrefix<C>(f: Recompute<C>, rows: seq<Row<C>>, k: nat)
    requires k <= |rows|
    ensures Relinked(f, rows)[..k] == Relinked(f, rows[..k])
  {
    if k < |rows| {
      var most := rows[..|rows| - 1];
      assert most[..k] == rows[..k];
      RelinkedPrefix(f, most, k);
    } else {
      assert rows[..k] == rows && Relinked(f, rows)[..k] == Relinked(f, rows);
    }
  }

  lemma {:induction false} PlanTargets<C>(f: Recompute<C>, rows: seq<Row<C>>, u: Update)
    requires u in Plan(f, rows)
    ensures exists i :: 0 <= i < |rows| && rows[i].key == u.key
  {
    var most := rows[..|rows| - 1];
    RelinkedKeepsContent(f, rows);
    if u in Plan(f, most) {
      PlanTargets(f, most, u);
      var i :| 0 <= i < |most| && most[i].key == u.key;
      assert rows[i].key == u.key;
    } else {
      assert rows[|rows| - 1].key == u.key;
    }
  }

  /** Updates aimed at the earlier rows leave a last row of another key alone. */
  lemma {:induction false} ApplyBeside<C>(most: seq<Row<C>>, last: Row<C>, us: seq<Update>)
    requires forall u :: u in us ==> u.key != last.key
    ensures ApplyUpdates(most + [last], us) == ApplyUpdates(most, us) + [last]
  {
    if us != [] {
      var front, u := us[..|us| - 1], us[|us| - 1];
      assert u in us && forall v :: v in front ==> v in us;
      ApplyBeside(most, last, front);
      var before := ApplyUpdates(most, front);
      assert ApplyUpdate(before + [last], u) == ApplyUpdate(before, u) + [last];
    }
  }

  lemma ApplyLast<C>(most: seq<Row<C>>, last: Row<C>, fixed: Row<C>)
    requires SameContent(last, fixed)
    requires forall i :: 0 <= i < |most| ==> most[i].key != last.key
    ensures ApplyUpdate(most + [last], Update(fixed.key, fixed.cols)) == most + [fixed]
  {
  }

  lemma ApplyPush<C>(rows: seq<Row<C>>, us: seq<Update>, u: Update)
    ensures ApplyUpdates(rows, us + [u]) == ApplyUpdate(ApplyUpdates(rows, us), u)
  {
    assert (us + [u])[..|us|] == us;
  }

  /** The plan for one more row: one more update exactly when that row's columns are wrong. */
  lemma PlanLast<C>(f: Recompute<C>, rows: seq<Row<C>>, fixed: Row<C>)
    requires rows != [] && fixed == Relinked(f, rows)[|rows| - 1]
    ensures var most, last := rows[..|rows| - 1], rows[|rows| - 1];
      && Relinked(f, rows) == Relinked(f, most) + [fixed] && SameContent(last, fixed)
      && Plan(f, rows) == if fixed != last then Plan(f, most) + [Update(fixed.key, fixed.cols)] else Plan(f, most)
  {
  }

  /** With unique keys, neither the plan for the earlier rows nor their relinked form touches
      the last key. */
  lemma LastKeyApart<C>(f: Recompute<C>, most: seq<Row<C>>, last: Row<C>)
    requires UniqueKeys(most + [last])
    ensures UniqueKeys(most)
    ensures forall u :: u in Plan(f, most) ==> u.key != last.key
    ensures forall i :: 0 <= i < |most| ==> Relinked(f, most)[i].key != last.key
  {
    var rows := most + [last];
    assert rows[|most|] == last && forall i :: 0 <= i < |most| ==> rows[i] == most[i];
    RelinkedKeepsContent(f, most);
    forall u | u in Plan(f, most)
      ensures u.key != last.key
    {
      PlanTargets(f, most, u);
    }
  }

  /** Applying the planned updates turns the table into its relinked form. */
  lemma {:induction false} ApplyPlanRelinks<C>(f: Recompute<C>, rows: seq<Row<C>>)
    requires UniqueKeys(rows)
    ensures ApplyUpdates(rows, Plan(f, rows)) == Relinked(f, rows)
  {
    if rows != [] {
      var most, last := rows[..|rows| - 1], rows[|rows| - 1];
      var fixed := Relinked(f, rows)[|rows| - 1];
      assert rows == most + [last];
      LastKeyApart(f, most, last);
      ApplyPlanRelinks(f, most);
      ApplyBeside(most, last, Plan(f, most));
      PlanLast(f, rows, fixed);
      if fixed != last {
        ApplyPush(rows, Plan(f, most), Update(fixed.key, fixed.cols));
        ApplyLast(Relinked(f, most), last, fixed);
      }
    }
  }

  /** Repair convergence, for every table with unique keys: the repaired table verifies,
      re-planning finds nothing, only hash columns changed, and rows before the first
      divergence were not written. */
  lemma RepairConverges<C>(f: Recompute<C>, rows: seq<Row<C>>)
    requires UniqueKeys(rows)
    ensures var repaired := ApplyUpdates(rows, Plan(f, rows));
            && Verifies(f, repaired)
            && Plan(f, repaired) == []
            && (forall i :: 0 <= i < |rows| ==> SameContent(rows[i], repaired[i]))
            && (forall k :: 0 <= k <= |rows| && Verifies(f, rows[..k]) ==> repaired[..k] == rows[..k])
  {
    ApplyPlanRelinks(f, rows);
    RelinkedVerifies(f, rows);
    VerifiesIsFixpoint(f, Relinked(f, rows));
    RelinkedKeepsContent(f, rows);
    forall k | 0 <= k <= |rows| && Verifies(f, rows[..k]) ensures Relinked(f, rows)[..k] == rows[..k] {
      VerifiesIsFixpoint(f, rows[..k]);
      RelinkedPrefix(f, rows, k);
    }
  }

  /** What an instance that still holds tip t appends. */
  function AppendOff<C>(f: Recompute<C>, t: Option<Hash>, key: string, content: C): Row<C> {
    Row(key, content, f(content, t))
  }

  /** An append to a verifying table, made off any tip under which its columns differ from
      those the true tip gives, is flagged alone, as one broken row; otherwise it extends. */
  lemma StaleAppendIsOneBrokenRow<C>(f: Recompute<C>, rows: seq<Row<C>>, t: Option<Hash>, key: string, content: C)
    requires Verifies(f, rows)
    ensures var plan := Plan(f, rows + [AppendOff(f, t, key, content)]);
            if f(content, t) == f(content, TipOf(rows)) then plan == []
            else plan == [Update(key, f(content, TipOf(rows)))]
  {
    var all := rows + [AppendOff(f, t, key, content)];
    VerifiesIsFixpoint(f, rows);
    PlanStep(f, all, |rows|);
    assert all[..|rows|] == rows && all[..|all|] == all;
  }
}
