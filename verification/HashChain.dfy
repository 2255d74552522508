/**
 Hash-linked records: what a verifying chain is, and what its tip pins down. The hash of a
 payload digest and a predecessor is an abstract function, injective only where said.
 */
module HashChain {
  import opened Wrappers

  type Hash = string

  type LinkHash = (Hash, Option<Hash>) -> Hash

  /** A record reduced to its three hash columns. */
  datatype Link = Link(payload: Hash, previous: Option<Hash>, record: Hash)

  /** The hash every successor of a chain must name. */
  function Tip(ls: seq<Link>): Option<Hash> {
    if ls == [] then None else Some(ls[|ls| - 1].record)
  }

  /** Each record commits to its payload digest and to its predecessor, from a null start. */
  ghost predicate Chained(link: LinkHash, ls: seq<Link>) {
    forall i :: 0 <= i < |ls| ==>
      ls[i].previous == Tip(ls[..i]) && ls[i].record == link(ls[i].payload, ls[i].previous)
  }

  ghost predicate Injective(link: LinkHash) {
    forall p, q, a, b :: link(p, a) == link(q, b) ==> p == q && a == b
  }

  lemma ChainedPrefix(link: LinkHash, ls: seq<Link>, k: nat)
    requires Chained(link, ls) && k <= |ls|
    ensures Chained(link, ls[..k])
  {
    assert forall i :: 0 <= i < k ==> ls[..k][..i] == ls[..i];
  }

  lemma ChainedExtend(link: LinkHash, ls: seq<Link>, l: Link)
    requires Chained(link, ls) && l.previous == Tip(ls) && l.record == link(l.payload, l.previous)
    ensures Chained(link, ls + [l])
  {
    forall i | 0 <= i < |ls + [l]|
      ensures (ls + [l])[i].previous == Tip((ls + [l])[..i])
      ensures (ls + [l])[i].record == link((ls + [l])[i].payload, (ls + [l])[i].previous)
    {
      assert (ls + [l])[..i] == ls[..i];
      assert i == |ls| ==> ls[..i] == ls;
    }
  }

  lemma LastLink(link: LinkHash, ls: seq<Link>)
    requires Chained(link, ls) && ls != []
    ensures var l := ls[|ls| - 1];
            l.previous == Tip(ls[..|ls| - 1]) && l.record == link(l.payload, l.previous)
    ensures Chained(link, ls[..|ls| - 1]) && ls == ls[..|ls| - 1] + [ls[|ls| - 1]]
  {
    ChainedPrefix(link, ls, |ls| - 1);
  }

  lemma EqualHashes(link: LinkHash, a: Link, b: Link)
    requires Injective(link) && a.record == b.record
    requires a.record == link(a.payload, a.previous) && b.record == link(b.payload, b.previous)
    ensures a == b
  {
  }

  /** Tamper evidence: under an injective hash, two verifying chains with one tip have the
      same length and the same records at every position. */
  lemma {:induction false} SameTipSameChain(link: LinkHash, a: seq<Link>, b: seq<Link>)
    requires Injective(link) && Chained(link, a) && Chained(link, b)
    requires Tip(a) == Tip(b)
    ensures a == b
    decreases |a|
  {
    if a != [] {
      LastLink(link, a);
      LastLink(link, b);
      EqualHashes(link, a[|a| - 1], b[|b| - 1]);
      SameTipSameChain(link, a[..|a| - 1], b[..|b| - 1]);
    }
  }

  /** Hence an edit, deletion or reordering that still verifies shows in the tip. */
  lemma AlteredChainChangesTip(link: LinkHash, a: seq<Link>, b: seq<Link>)
    requires Injective(link) && Chained(link, a) && Chained(link, b) && a != b
    ensures Tip(a) != Tip(b)
  {
    if Tip(a) == Tip(b) {
      SameTipSameChain(link, a, b);
    }
  }
}
