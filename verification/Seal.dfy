/** Sealing a campaign into a chain of signed evidence records. */
module Seal {
  import opened Wrappers
  import opened HashChain
  import opened Attack
  import Campaign

  datatype Payload =
    | SeedPayload(result: AttackResult, budget: int)
    | SummaryPayload(seedIds: seq<string>, adaptiveAsr: real, budget: int)
    | CertificatePayload(certified: Campaign.Certified)

  datatype Record = Record(payloadJson: string, payloadSha: Hash, previous: Option<Hash>, recordHash: Hash)

  /** Signing is randomised, so a signer may answer differently at each use. The canonical
      form of a payload with its signature block, its digest and the link hash are given. */
  datatype Crypto = Crypto(
    sign: (nat, Payload) -> string, canonical: (Payload, string) -> string, sha: string -> Hash, link: LinkHash)

  function SealOne(c: Crypto, n: nat, p: Payload, previous: Option<Hash>): Record {
    var json := c.canonical(p, c.sign(n, p));
    var digest := c.sha(json);
    Record(json, digest, previous, c.link(digest, previous))
  }

  function AsLinks(rs: seq<Record>): (ls: seq<Link>)
    ensures |ls| == |rs|
    ensures forall i :: 0 <= i < |rs| ==> ls[i] == Link(rs[i].payloadSha, rs[i].previous, rs[i].recordHash)
  {
    seq(|rs|, i requires 0 <= i < |rs| => Link(rs[i].payloadSha, rs[i].previous, rs[i].recordHash))
  }

  /** A verifying bundle: digests match their payloads and the records are chained. */
  ghost predicate Sealed(c: Crypto, rs: seq<Record>) {
    && (forall i :: 0 <= i < |rs| ==> rs[i].payloadSha == c.sha(rs[i].payloadJson))
    && Chained(c.link, AsLinks(rs))
  }

  lemma SealedExtend(c: Crypto, rs: seq<Record>, n: nat, p: Payload)
    requires Sealed(c, rs)
    ensures Sealed(c, rs + [SealOne(c, n, p, Tip(AsLinks(rs)))])
  {
    var r := SealOne(c, n, p, Tip(AsLinks(rs)));
    ChainedExtend(c.link, AsLinks(rs), Link(r.payloadSha, r.previous, r.recordHash));
    assert AsLinks(rs + [r]) == AsLinks(rs) + [Link(r.payloadSha, r.previous, r.recordHash)];
  }

  /** Record i carries payload p, signed at its turn. */
  predicate Carries(c: Crypto, r: Record, n: nat, p: Payload) { r.payloadJson == c.canonical(p, c.sign(n, p)) }

  function SummaryOf(results: seq<AttackResult>, budget: int): Payload {
    SummaryPayload(seq(|results|, i requires 0 <= i < |results| => results[i].seedId), Campaign.AdaptiveAsr(results), budget)
  }

  /** The first n records carry the first n seeds. */
  ghost predicate CarriesSeeds(c: Crypto, rs: seq<Record>, results: seq<AttackResult>, budget: int, n: nat) {
    n <= |rs| && n <= |results| && forall k :: 0 <= k < n ==> Carries(c, rs[k], k, SeedPayload(results[k], budget))
  }

  lemma CarriesPush(c: Crypto, rs: seq<Record>, r: Record, results: seq<AttackResult>, budget: int, n: nat)
    requires CarriesSeeds(c, rs, results, budget, n)
    ensures CarriesSeeds(c, rs + [r], results, budget, n)
    ensures n == |rs| < |results| && Carries(c, r, n, SeedPayload(results[n], budget)) ==>
              CarriesSeeds(c, rs + [r], results, budget, n + 1)
  {
  }

  /** Seal one more payload onto the chain. */
  method SealNext(c: Crypto, rs: seq<Record>, n: nat, p: Payload, previous: Option<Hash>) returns (record: Record)
    requires Sealed(c, rs) && previous == Tip(AsLinks(rs))
    ensures Sealed(c, rs + [record]) && Carries(c, record, n, p)
    ensures Some(record.recordHash) == Tip(AsLinks(rs + [record]))
  {
    SealedExtend(c, rs, n, p);
    record := SealOne(c, n, p, previous);
  }

  /** One record per seed in report order, then the summary: always a verifying chain of
      n + 1 records. */
  method SealCampaign(c: Crypto, results: seq<AttackResult>, budget: int) returns (records: seq<Record>)
    ensures |records| == |results| + 1 && Sealed(c, records)
    ensures CarriesSeeds(c, records, results, budget, |results|)
    ensures Carries(c, records[|results|], |results|, SummaryOf(results, budget))
  {
    records := [];
    var previous: Option<Hash> := None;
    for i := 0 to |results|
      invariant |records| == i && Sealed(c, records) && previous == Tip(AsLinks(records))
      invariant CarriesSeeds(c, records, results, budget, i)
    {
      var record := SealNext(c, records, i, SeedPayload(results[i], budget), previous);
      CarriesPush(c, records, record, results, budget, i);
      records := records + [record];
      previous := Some(record.recordHash);
    }
    var last := SealNext(c, records, |results|, SummaryOf(results, budget), previous);
    CarriesPush(c, records, last, results, budget, |results|);
    records := records + [last];
  }

  /** The campaign chain plus one certificate record; a vacuous certificate is refused. */
  method SealCertifiedCampaign(c: Crypto, cert: Campaign.Certified) returns (records: Option<seq<Record>>)
    ensures records.None? <==> cert.coverage.Vacuous()
    ensures records.Some? ==>
              && Sealed(c, records.value) && |records.value| == |cert.results| + 2
              && CarriesSeeds(c, records.value, cert.results, cert.coverage.queryBudget, |cert.results|)
              && Carries(c, records.value[|cert.results|], |cert.results|, SummaryOf(cert.results, cert.coverage.queryBudget))
              && Carries(c, records.value[|cert.results| + 1], |cert.results| + 1, CertificatePayload(cert))
  {
    if cert.coverage.Vacuous() {
      return None;
    }
    var rs := SealCampaign(c, cert.results, cert.coverage.queryBudget);
    var n := |cert.results| + 1;
    var last := SealNext(c, rs, n, CertificatePayload(cert), Some(rs[|rs| - 1].recordHash));
    CarriesPush(c, rs, last, cert.results, cert.coverage.queryBudget, |cert.results|);
    records := Some(rs + [last]);
  }

  /** Tamper evidence for bundles: under an injective link hash, two verifying bundles with
      one tip have the same length and the same payload digest at every position. */
  lemma SameTipSameBundle(c: Crypto, a: seq<Record>, b: seq<Record>)
    requires Injective(c.link) && Sealed(c, a) && Sealed(c, b) && Tip(AsLinks(a)) == Tip(AsLinks(b))
    ensures |a| == |b|
    ensures forall i :: 0 <= i < |a| ==> c.sha(a[i].payloadJson) == c.sha(b[i].payloadJson)
  {
    SameTipSameChain(c.link, AsLinks(a), AsLinks(b));
    forall i | 0 <= i < |a| ensures c.sha(a[i].payloadJson) == c.sha(b[i].payloadJson) {
      assert AsLinks(a)[i] == AsLinks(b)[i];
    }
  }

  /** The summary names every seed in order and the bypassed share of them. */
  lemma SummarySays(results: seq<AttackResult>, budget: int)
    requires results != []
    ensures var p := SummaryOf(results, budget);
      && |p.seedIds| == |results| && (forall i :: 0 <= i < |results| ==> p.seedIds[i] == results[i].seedId)
      && p.adaptiveAsr * |results| as real == |Campaign.Bypassed(results)| as real && p.budget == budget
  {
    Campaign.RateIsShare(results);
  }
}
