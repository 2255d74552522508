/** The discovery-ledger repair script and the store's own verification. */
module LedgerRepair {
  import opened Wrappers
  import opened HashChain
  import opened Relink

  /** A ledger entry: the canonical candidate-and-outcome text, and when it was appended. */
  datatype Entry = Entry(text: string, appendedAt: int)

  datatype Hashes = Hashes(sha: string -> Hash, link: LinkHash)

  type Table = seq<Row<Entry>>

  datatype Report = Report(
    total: nat, toFix: nat, firstDivergence: Option<(string, int)>, oldTip: Option<Hash>, newTip: Option<Hash>)

  /** Digest of the text, the predecessor, and the hash of the two together. */
  function Columned(h: Hashes): Relink.Recompute<Entry> {
    (e: Entry, previous: Option<Hash>) => Columns(h.sha(e.text), previous, h.link(h.sha(e.text), previous))
  }

  /** Key and time of the first row whose stored columns differ. */
  function FirstOf(h: Hashes, rows: Table): Option<(string, int)> {
    if rows == [] then None
    else
      var last := rows[|rows| - 1];
      match FirstOf(h, rows[..|rows| - 1])
      case Some(d) => Some(d)
      case None =>
        if Relinked(Columned(h), rows)[|rows| - 1] == last then None else Some((last.key, last.content.appendedAt))
  }

  /** k is the first row whose stored columns differ from the recomputed ones. */
  ghost predicate DivergesFirstAt(h: Hashes, rows: Table, k: nat) {
    k < |rows| && rows[k] != Relinked(Columned(h), rows)[k] && rows[..k] == Relinked(Columned(h), rows)[..k]
  }

  lemma {:induction false} FirstOfIsFirst(h: Hashes, rows: Table)
    ensures match FirstOf(h, rows)
            case None => Relinked(Columned(h), rows) == rows
            case Some(d) => exists k: nat :: DivergesFirstAt(h, rows, k) && d == (rows[k].key, rows[k].content.appendedAt)
  {
    if rows != [] {
      var f, most, last := Columned(h), rows[..|rows| - 1], rows[|rows| - 1];
      FirstOfIsFirst(h, most);
      assert rows == most + [last];
      match FirstOf(h, most) {
        case Some(d) =>
          var k: nat :| DivergesFirstAt(h, most, k) && d == (most[k].key, most[k].content.appendedAt);
          assert rows[..k] == most[..k] && Relinked(f, rows)[..k] == Relinked(f, most)[..k];
          assert DivergesFirstAt(h, rows, k);
        case None =>
          assert Relinked(f, rows)[..|most|] == most;
          assert Relinked(f, rows)[|most|] != last ==> DivergesFirstAt(h, rows, |most|);
      }
    }
  }

  /** Walk the rows in sequence order, as the script does, carrying the recomputed tip. */
  method Recompute(h: Hashes, rows: Table) returns (updates: seq<Update>, report: Report)
    ensures updates == Plan(Columned(h), rows)
    ensures report.total == |rows| && report.toFix == |updates|
    ensures report.newTip == TipOf(Relinked(Columned(h), rows)) && report.oldTip == TipOf(rows)
    ensures match report.firstDivergence
            case None => updates == []
            case Some(d) => exists k: nat :: DivergesFirstAt(h, rows, k) && d == (rows[k].key, rows[k].content.appendedAt)
  {
    ghost var f := Columned(h);
    updates := [];
    var first: Option<(string, int)> := None;
    var previous: Option<Hash>, oldTip: Option<Hash>, newTip: Option<Hash> := None, None, None;
    for i := 0 to |rows|
      invariant updates == Plan(f, rows[..i])
      invariant previous == newTip == TipOf(Relinked(f, rows[..i]))
      invariant oldTip == TipOf(rows[..i])
      invariant first == FirstOf(h, rows[..i])
    {
      PlanStep(f, rows, i);
      assert rows[..i + 1][..i] == rows[..i];
      var row := rows[i];
      var payloadSha := h.sha(row.content.text);
      var record := h.link(payloadSha, previous);
      if row.cols != Columns(payloadSha, previous, record) {
        if first == None {
          first := Some((row.key, row.content.appendedAt));
        }
        updates := updates + [Update(row.key, Columns(payloadSha, previous, record))];
      }
      oldTip, newTip, previous := Some(row.cols.record), Some(record), Some(record);
    }
    assert rows[..|rows|] == rows;
    FirstOfIsFirst(h, rows);
    if first == None {
      RelinkedVerifies(f, rows);
      VerifiesIsFixpoint(f, rows);
    }
    report := Report(|rows|, |updates|, first, oldTip, newTip);
  }

  /** Dry run or repair: read, plan, apply, and judge the read-back by a second plan. */
  method Repair(h: Hashes, rows: Table, apply: bool) returns (table: Table, exitCode: int)
    requires UniqueKeys(rows)
    ensures !apply ==> table == rows
    ensures apply ==> exitCode == 0 && Verifies(Columned(h), table) && table == Relinked(Columned(h), rows)
    ensures exitCode == 0 <==> Verifies(Columned(h), table)
  {
    ghost var f := Columned(h);
    NothingToFixIffVerifies(f, rows);
    ApplyPlanRelinks(f, rows);
    RelinkedVerifies(f, rows);
    var updates, report := Recompute(h, rows);
    if updates == [] {
      EmptyPlanMeansRelinked(f, rows);
      return rows, 0;
    }
    if !apply {
      return rows, 1;
    }
    table := ApplyUpdates(rows, updates);
    var again, after := Recompute(h, table);
    VerifiesIsFixpoint(f, table);
    exitCode := if after.toFix == 0 then 0 else 1;
  }

  /** The store's own verification: payload digest, link and predecessor of every entry. */
  method VerifyChain(h: Hashes, rows: Table) returns (ok: bool)
    ensures ok <==> Verifies(Columned(h), rows)
  {
    var previous: Option<Hash> := None;
    for i := 0 to |rows|
      invariant Verifies(Columned(h), rows[..i]) && previous == TipOf(rows[..i])
    {
      assert rows[..i + 1] == rows[..i] + [rows[i]];
      var row := rows[i];
      var payloadSha := h.sha(row.content.text);
      if payloadSha != row.cols.digest {
        return false;
      }
      if h.link(payloadSha, previous) != row.cols.record {
        return false;
      }
      if row.cols.previous != previous {
        return false;
      }
      VerifiesExtend(Columned(h), rows[..i], row);
      previous := Some(row.cols.record);
    }
    assert rows[..|rows|] == rows;
    ok := true;
  }

  /** An append off a tip other than the true one is flagged, alone, as one broken row whose
      predecessor is corrected to the true tip. */
  lemma StaleLedgerAppend(h: Hashes, rows: Table, t: Option<Hash>, key: string, e: Entry)
    requires Verifies(Columned(h), rows)
    ensures var plan := Plan(Columned(h), rows + [AppendOff(Columned(h), t, key, e)]);
            if t == TipOf(rows) then plan == []
            else |plan| == 1 && plan[0].key == key && plan[0].cols.previous == TipOf(rows)
  {
    StaleAppendIsOneBrokenRow(Columned(h), rows, t, key, e);
  }

  /** Two instances appending off the same parent leave the second child, and only it,
      broken, unless the first child's hash is the parent's own. */
  lemma SplitBrainForks(h: Hashes, rows: Table, ka: string, a: Entry, kb: string, b: Entry)
    requires Verifies(Columned(h), rows)
    requires TipOf(rows) != Some(h.link(h.sha(a.text), TipOf(rows)))
    ensures var first := AppendOff(Columned(h), TipOf(rows), ka, a);
            var second := AppendOff(Columned(h), TipOf(rows), kb, b);
            var plan := Plan(Columned(h), rows + [first] + [second]);
            Verifies(Columned(h), rows + [first]) && |plan| == 1 && plan[0].key == kb
  {
    var first := AppendOff(Columned(h), TipOf(rows), ka, a);
    VerifiesExtend(Columned(h), rows, first);
    StaleLedgerAppend(h, rows + [first], TipOf(rows), kb, b);
  }

  // ----- tamper evidence ----------------------------------------------------------------

  function AsLinks(rows: Table): (ls: seq<Link>)
    ensures |ls| == |rows|
    ensures forall i :: 0 <= i < |rows| ==> ls[i] == Link(rows[i].cols.digest, rows[i].cols.previous, rows[i].cols.record)
  {
    seq(|rows|, i requires 0 <= i < |rows| => Link(rows[i].cols.digest, rows[i].cols.previous, rows[i].cols.record))
  }

  lemma VerifyingLedgerIsChained(h: Hashes, rows: Table)
    requires Verifies(Columned(h), rows)
    ensures Chained(h.link, AsLinks(rows))
  {
    forall i | 0 <= i < |rows|
      ensures AsLinks(rows)[i].previous == Tip(AsLinks(rows)[..i])
      ensures AsLinks(rows)[i].record == h.link(AsLinks(rows)[i].payload, AsLinks(rows)[i].previous)
    {
      assert rows[i].cols == Columned(h)(rows[i].content, TipOf(rows[..i]));
      if i > 0 {
        assert AsLinks(rows)[..i][i - 1].record == rows[..i][i - 1].cols.record;
      }
    }
  }

  /** Two verifying ledgers with one tip have the same length and the same columns at every
      position, so each position's texts have the same digest. */
  lemma SameTipSameLedger(h: Hashes, a: Table, b: Table)
    requires Injective(h.link) && Verifies(Columned(h), a) && Verifies(Columned(h), b) && TipOf(a) == TipOf(b)
    ensures |a| == |b|
    ensures forall i :: 0 <= i < |a| ==> a[i].cols == b[i].cols && h.sha(a[i].content.text) == h.sha(b[i].content.text)
  {
    VerifyingLedgerIsChained(h, a);
    VerifyingLedgerIsChained(h, b);
    LinksEqual(h, a, b);
    forall i | 0 <= i < |a|
      ensures a[i].cols == b[i].cols && h.sha(a[i].content.text) == h.sha(b[i].content.text)
    {
      assert AsLinks(a)[i] == AsLinks(b)[i];
      assert a[i].cols.digest == h.sha(a[i].content.text) && b[i].cols.digest == h.sha(b[i].content.text);
    }
  }

  lemma LinksEqual(h: Hashes, a: Table, b: Table)
    requires Injective(h.link) && Chained(h.link, AsLinks(a)) && Chained(h.link, AsLinks(b)) && TipOf(a) == TipOf(b)
    ensures AsLinks(a) == AsLinks(b)
  {
    SameTipSameChain(h.link, AsLinks(a), AsLinks(b));
  }
}
