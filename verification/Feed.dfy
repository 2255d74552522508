/**
 The loader of the local enforcement maps and the signed feed it consumes.

 What the host answers (cgroup ids, inodes), what arrives on the wire, parsing and the MAC
 are parameters. A map write fails when the key is new and the map is at its declared size.
 */
module Feed {
  import opened Wrappers
  import opened LocalPep

  const MAX_ENROLLED := 4096
  const MAX_DENY := 65536

  datatype Entry = Entry(agentId: string, path: string)

  datatype ForbidSet = ForbidSet(forbid: seq<Entry>, epoch: int)

  /** What this host resolves, and the agent-to-cgroup assignment it owns. */
  datatype Host = Host(cgroupId: string -> Option<nat>, inodeOf: string -> Option<nat>, agents: map<string, string>)

  // ----- verification -------------------------------------------------------------------

  datatype Envelope = Envelope(canonical: string, sig: string)

  datatype Verifier = Verifier(
    parseEnvelope: seq<int> -> Option<Envelope>, mac: (string, string) -> string, parseSet: string -> Option<ForbidSet>)

  datatype FeedError = FetchFailed | BadEnvelope | MissingFields | MacMismatch | BadSet | StaleEpoch | ApplyFailed

  function VerifyFeed(v: Verifier, raw: seq<int>, secret: string): Result<ForbidSet, FeedError> {
    match v.parseEnvelope(raw)
    case None => Err(BadEnvelope)
    case Some(env) =>
      if env.canonical == "" || env.sig == "" then Err(MissingFields)
      else if v.mac(secret, env.canonical) != env.sig then Err(MacMismatch)
      else
        match v.parseSet(env.canonical)
        case None => Err(BadSet)
        case Some(s) => Ok(s)
  }

  // ----- applying a verified set --------------------------------------------------------

  datatype Progress = Progress(ctl: Control, memo: map<string, nat>, applied: nat, skipped: nat, ok: bool)

  function PutEnrolled(c: Control, cg: nat): Option<Control> {
    if cg !in c.enrolled && |c.enrolled| >= MAX_ENROLLED then None
    else Some(c.(enrolled := c.enrolled + {cg}))
  }

  function PutDeny(c: Control, cg: nat, ino: nat): Option<Control> {
    if (cg, ino) !in c.deny && |c.deny| >= MAX_DENY then None
    else Some(c.(deny := c.deny + {(cg, ino)}))
  }

  function EnrollAgent(h: Host, p: Progress, agent: string, path: string): Progress {
    if agent in p.memo then p
    else
      match h.cgroupId(path)
      case None => p.(ok := false)
      case Some(cg) =>
        match PutEnrolled(p.ctl, cg)
        case None => p.(ok := false)
        case Some(c) => p.(ctl := c, memo := p.memo[agent := cg])
  }

  function ApplyOne(h: Host, p: Progress, e: Entry): Progress {
    if e.agentId !in h.agents then p.(skipped := p.skipped + 1)
    else
      var q := EnrollAgent(h, p, e.agentId, h.agents[e.agentId]);
      if !q.ok || e.agentId !in q.memo then q
      else
        match h.inodeOf(e.path)
        case None => q.(skipped := q.skipped + 1)
        case Some(ino) =>
          match PutDeny(q.ctl, q.memo[e.agentId], ino)
          case None => q.(ok := false)
          case Some(c) => q.(ctl := c, applied := q.applied + 1)
  }

  function ApplyAll(h: Host, c: Control, es: seq<Entry>): Progress {
    if es == [] then Progress(c, map[], 0, 0, true)
    else
      var p := ApplyAll(h, c, es[..|es| - 1]);
      if p.ok then ApplyOne(h, p, es[|es| - 1]) else p
  }

  lemma {:induction false} ErrorSticks(h: Host, c: Control, es: seq<Entry>, i: nat)
    requires i <= |es| && !ApplyAll(h, c, es[..i]).ok
    ensures ApplyAll(h, c, es) == ApplyAll(h, c, es[..i])
  {
    if i < |es| {
      assert es[..|es| - 1][..i] == es[..i];
      ErrorSticks(h, c, es[..|es| - 1], i);
    } else {
      assert es[..i] == es;
    }
  }

  /** The maps after a kill switch that left some keys undeleted; none when it succeeds. */
  function Killed(c: Control, left: set<nat>): Control { c.(enrolled := c.enrolled * left) }

  /** The loader owns the two control maps and writes them in place. */
  class Loader {
    var enrolled: set<nat>
    var deny: set<(nat, nat)>

    function View(): Control
      reads this
    {
      Control(enrolled, deny)
    }

    constructor ()
      ensures View() == Control({}, {})
    {
      enrolled, deny := {}, {};
    }

    method Enroll(h: Host, path: string) returns (id: Option<nat>)
      modifies this`enrolled
      ensures match h.cgroupId(path)
              case None => id == None && View() == old(View())
              case Some(cg) =>
                match PutEnrolled(old(View()), cg)
                case None => id == None && View() == old(View())
                case Some(c) => id == Some(cg) && View() == c
    {
      var cg := h.cgroupId(path);
      if cg.None? || (cg.value !in enrolled && |enrolled| >= MAX_ENROLLED) {
        return None;
      }
      enrolled := enrolled + {cg.value};
      return cg;
    }

    method Forbid(cg: nat, ino: nat) returns (ok: bool)
      modifies this`deny
      ensures ok <==> PutDeny(old(View()), cg, ino).Some?
      ensures View() == if ok then PutDeny(old(View()), cg, ino).value else old(View())
    {
      ok := (cg, ino) in deny || |deny| < MAX_DENY;
      if ok {
        deny := deny + {(cg, ino)};
      }
    }

    /** Lifting an absent denial is not an error. */
    method Unforbid(cg: nat, ino: nat)
      modifies this`deny
      ensures View() == old(View()).(deny := old(deny) - {(cg, ino)})
    {
      deny := deny - {(cg, ino)};
    }

    /** The kill switch: collect the enrolled keys, then delete them one by one. Iteration may
        fault, and so may the deletion of any key in `faulty`. */
    method Disarm(iterFault: bool, faulty: set<nat>) returns (cleared: nat, ok: bool)
      modifies this`enrolled
      ensures deny == old(deny) && enrolled <= old(enrolled)
      ensures ok ==> enrolled == {} && cleared == |old(enrolled)|
      ensures !ok ==> iterFault || enrolled * faulty != {}
      ensures cleared == |old(enrolled)| - |enrolled|
      ensures View() == Killed(old(View()), enrolled)
    {
      if iterFault {
        return 0, false;
      }
      cleared := 0;
      while enrolled != {}
        invariant enrolled <= old(enrolled)
        invariant cleared == |old(enrolled)| - |enrolled|
        decreases |enrolled|
      {
        var k :| k in enrolled;
        if k in faulty {
          assert k in enrolled * faulty;
          return cleared, false;
        }
        enrolled := enrolled - {k};
        cleared := cleared + 1;
      }
      ok := true;
    }

    /** Apply a verified set, entry by entry, stopping at the first error. */
    method ApplyFeed(s: ForbidSet, h: Host) returns (applied: nat, skipped: nat, ok: bool)
      modifies this
      ensures var p := ApplyAll(h, old(View()), s.forbid);
              View() == p.ctl && applied == p.applied && skipped == p.skipped && ok == p.ok
    {
      var memo: map<string, nat> := map[];
      applied, skipped, ok := 0, 0, true;
      ghost var c := View();
      for i := 0 to |s.forbid|
        invariant ok && ApplyAll(h, c, s.forbid[..i]) == Progress(View(), memo, applied, skipped, true)
      {
        assert s.forbid[..i + 1][..i] == s.forbid[..i];
        memo, applied, skipped, ok := ApplyEntry(s.forbid[i], h, memo, applied, skipped);
        if !ok {
          ErrorSticks(h, c, s.forbid, i + 1);
          return;
        }
      }
      assert s.forbid[..|s.forbid|] == s.forbid;
    }

    /** One entry of the set: enrol its agent once, then deny its inode. */
    method ApplyEntry(e: Entry, h: Host, memo0: map<string, nat>, applied0: nat, skipped0: nat)
      returns (memo: map<string, nat>, applied: nat, skipped: nat, ok: bool)
      modifies this
      ensures Progress(View(), memo, applied, skipped, ok)
           == ApplyOne(h, Progress(old(View()), memo0, applied0, skipped0, true), e)
    {
      memo, applied, skipped, ok := memo0, applied0, skipped0, true;
      if e.agentId !in h.agents {
        skipped := skipped + 1;
        return;
      }
      if e.agentId !in memo {
        var id := Enroll(h, h.agents[e.agentId]);
        if id.None? {
          ok := false;
          return;
        }
        memo := memo[e.agentId := id.value];
      }
      var ino := h.inodeOf(e.path);
      if ino.None? {
        skipped := skipped + 1;
        return;
      }
      ok := Forbid(memo[e.agentId], ino.value);
      if ok {
        applied := applied + 1;
      }
    }

    /** Fetch, verify, check the epoch, apply. */
    method PollFeed(v: Verifier, raw: Option<seq<int>>, secret: string, h: Host, lastEpoch: int)
      returns (epoch: int, applied: nat, skipped: nat, err: Option<FeedError>)
      modifies this
      ensures var p := Poll(v, old(View()), raw, secret, h, lastEpoch);
              View() == p.ctl && epoch == p.epoch && applied == p.applied && skipped == p.skipped && err == p.err
    {
      if raw.None? {
        return lastEpoch, 0, 0, Some(FetchFailed);
      }
      var checked := VerifyFeed(v, raw.value, secret);
      if checked.Err? {
        return lastEpoch, 0, 0, Some(checked.error);
      }
      var s := checked.value;
      if s.epoch < lastEpoch {
        return lastEpoch, 0, 0, Some(StaleEpoch);
      }
      var ok;
      applied, skipped, ok := ApplyFeed(s, h);
      epoch, err := s.epoch, if ok then None else Some(ApplyFailed);
    }
  }

  datatype Polled = Polled(ctl: Control, epoch: int, applied: nat, skipped: nat, err: Option<FeedError>)

  function Poll(v: Verifier, c: Control, raw: Option<seq<int>>, secret: string, h: Host, lastEpoch: int): Polled {
    if raw.None? then Polled(c, lastEpoch, 0, 0, Some(FetchFailed))
    else
      match VerifyFeed(v, raw.value, secret)
      case Err(e) => Polled(c, lastEpoch, 0, 0, Some(e))
      case Ok(s) =>
        if s.epoch < lastEpoch then Polled(c, lastEpoch, 0, 0, Some(StaleEpoch))
        else
          var p := ApplyAll(h, c, s.forbid);
          Polled(p.ctl, s.epoch, p.applied, p.skipped, if p.ok then None else Some(ApplyFailed))
  }

  // ----- what applying keeps ------------------------------------------------------------

  /** The cgroup this host assigns to an entry's agent. */
  function CgroupOf(h: Host, e: Entry): Option<nat> {
    if e.agentId in h.agents then h.cgroupId(h.agents[e.agentId]) else None
  }

  /** The entry is in force: its agent's cgroup is governed and its inode denied. */
  ghost predicate InForce(h: Host, c: Control, e: Entry) {
    match (CgroupOf(h, e), h.inodeOf(e.path))
    case (Some(cg), Some(ino)) => cg in c.enrolled && (cg, ino) in c.deny
    case (Some(cg), None) => cg in c.enrolled
    case (None, _) => e.agentId !in h.agents
  }

  ghost predicate MemoSound(h: Host, p: Progress) {
    forall a :: a in p.memo ==> a in h.agents && h.cgroupId(h.agents[a]) == Some(p.memo[a]) && p.memo[a] in p.ctl.enrolled
  }

  /** Where a cgroup or denial came from: already there, or asked for by an entry. */
  ghost predicate Sourced(h: Host, c: Control, es: seq<Entry>, r: Control) {
    && (forall cg :: cg in r.enrolled ==> cg in c.enrolled || exists e :: e in es && CgroupOf(h, e) == Some(cg))
    && (forall cg, ino :: (cg, ino) in r.deny ==>
          (cg, ino) in c.deny || exists e :: e in es && CgroupOf(h, e) == Some(cg) && h.inodeOf(e.path) == Some(ino))
  }

  lemma ApplyOneGrows(h: Host, p: Progress, e: Entry)
    requires p.ok && MemoSound(h, p)
    ensures var q := ApplyOne(h, p, e);
            && MemoSound(h, q) && p.ctl.enrolled <= q.ctl.enrolled && p.ctl.deny <= q.ctl.deny
            && (q.ok ==> InForce(h, q.ctl, e) && q.applied + q.skipped == p.applied + p.skipped + 1)
            && Sourced(h, p.ctl, [e], q.ctl)
  {
    if e.agentId in h.agents {
      assert e in [e];
      var q := EnrollAgent(h, p, e.agentId, h.agents[e.agentId]);
      assert MemoSound(h, q);
    }
  }

  /** Applying only adds; on success every entry is accounted for and in force; and nothing is
      added that no entry asked for. */
  lemma {:induction false} ApplyAllAccounts(h: Host, c: Control, es: seq<Entry>)
    ensures var p := ApplyAll(h, c, es);
            && MemoSound(h, p) && c.enrolled <= p.ctl.enrolled && c.deny <= p.ctl.deny
            && (p.ok ==> p.applied + p.skipped == |es| && forall e :: e in es ==> InForce(h, p.ctl, e))
            && Sourced(h, c, es, p.ctl)
  {
    if es != [] {
      var most, last := es[..|es| - 1], es[|es| - 1];
      ApplyAllAccounts(h, c, most);
      var p := ApplyAll(h, c, most);
      assert es == most + [last];
      if p.ok {
        ApplyOneGrows(h, p, last);
        var q := ApplyOne(h, p, last);
        forall e | e in es ensures q.ok ==> InForce(h, q.ctl, e) {
          if e in most {
            assert InForce(h, p.ctl, e);
          }
        }
        SourcedCompose(h, c, most, p.ctl, last, q.ctl);
      } else {
        SourcedCompose(h, c, most, p.ctl, last, p.ctl);
      }
    }
  }

  lemma SourcedCompose(h: Host, a: Control, most: seq<Entry>, b: Control, last: Entry, r: Control)
    requires Sourced(h, a, most, b) && Sourced(h, b, [last], r)
    ensures Sourced(h, a, most + [last], r)
  {
    var es := most + [last];
    forall cg | cg in r.enrolled ensures cg in a.enrolled || exists e :: e in es && CgroupOf(h, e) == Some(cg) {
      if cg in b.enrolled && cg !in a.enrolled {
        var e :| e in most && CgroupOf(h, e) == Some(cg);
        assert e in es;
      } else if cg !in b.enrolled {
        assert last in es;
      }
    }
    forall cg, ino | (cg, ino) in r.deny
      ensures (cg, ino) in a.deny || exists e :: e in es && CgroupOf(h, e) == Some(cg) && h.inodeOf(e.path) == Some(ino)
    {
      if (cg, ino) in b.deny && (cg, ino) !in a.deny {
        var e :| e in most && CgroupOf(h, e) == Some(cg) && h.inodeOf(e.path) == Some(ino);
        assert e in es;
      } else if (cg, ino) !in b.deny {
        assert last in es;
      }
    }
  }

  // ----- the serving loop ---------------------------------------------------------------

  /** One turn of the serve loop: a poll tick, or the kill-switch signal. The loop ignores the
      kill switch's error, so a faulted one may leave cgroups governed. */
  datatype Turn = PollTick(raw: Option<seq<int>>, host: Host) | Kill(left: set<nat>)

  datatype Server = Server(ctl: Control, epoch: int)

  function Serve(v: Verifier, secret: string, s: Server, t: Turn): Server {
    match t
    case Kill(left) => s.(ctl := Killed(s.ctl, left))
    case PollTick(raw, h) =>
      var p := Poll(v, s.ctl, raw, secret, h, s.epoch);
      Server(p.ctl, if p.err == None then p.epoch else s.epoch)
  }

  function ServeAll(v: Verifier, secret: string, s: Server, ts: seq<Turn>): Server {
    if ts == [] then s else Serve(v, secret, ServeAll(v, secret, s, ts[..|ts| - 1]), ts[|ts| - 1])
  }

  /** The message carries a set: an envelope with both fields, signed over its canonical text
      with the shared secret, whose text parses as the set. */
  ghost predicate Authentic(v: Verifier, secret: string, raw: seq<int>, s: ForbidSet) {
    match v.parseEnvelope(raw)
    case None => false
    case Some(env) =>
      && env.canonical != "" && env.sig != ""
      && env.sig == v.mac(secret, env.canonical) && v.parseSet(env.canonical) == Some(s)
  }

  /** Verification is exactly authenticity. */
  lemma VerifiesIffAuthentic(v: Verifier, secret: string, raw: seq<int>, s: ForbidSet)
    ensures VerifyFeed(v, raw, secret) == Ok(s) <==> Authentic(v, secret, raw, s)
  {
  }

  /** The turn brings an authentic set that is not older than the accepted epoch. */
  ghost predicate Brings(v: Verifier, secret: string, epoch: int, t: Turn, s: ForbidSet) {
    t.PollTick? && t.raw.Some? && Authentic(v, secret, t.raw.value, s) && s.epoch >= epoch
  }

  /** A poll without one. */
  ghost predicate Rejected(v: Verifier, secret: string, t: Turn, epoch: int) {
    t.PollTick? && forall s :: !Brings(v, secret, epoch, t, s)
  }

  /** What a turn that brings a set does with it. */
  lemma BroughtIsApplied(v: Verifier, secret: string, s: Server, t: Turn, fs: ForbidSet)
    requires Brings(v, secret, s.epoch, t, fs)
    ensures Serve(v, secret, s, t).ctl == ApplyAll(t.host, s.ctl, fs.forbid).ctl
    ensures Serve(v, secret, s, t).epoch == if ApplyAll(t.host, s.ctl, fs.forbid).ok then fs.epoch else s.epoch
  {
    VerifiesIffAuthentic(v, secret, t.raw.value, fs);
  }

  lemma RejectedDoesNothing(v: Verifier, secret: string, s: Server, t: Turn)
    requires Rejected(v, secret, t, s.epoch)
    ensures Serve(v, secret, s, t) == s
  {
    if t.raw.Some? && VerifyFeed(v, t.raw.value, secret).Ok? {
      var fs := VerifyFeed(v, t.raw.value, secret).value;
      VerifiesIffAuthentic(v, secret, t.raw.value, fs);
      assert !Brings(v, secret, s.epoch, t, fs);
    }
  }

  /** A poll brings at most one set. */
  lemma BringsOne(v: Verifier, secret: string, epoch: int, t: Turn, a: ForbidSet, b: ForbidSet)
    requires Brings(v, secret, epoch, t, a) && Brings(v, secret, epoch, t, b)
    ensures a == b
  {
  }

  lemma ServeStepSafe(v: Verifier, secret: string, s: Server, t: Turn)
    ensures s.epoch <= Serve(v, secret, s, t).epoch && s.ctl.deny <= Serve(v, secret, s, t).ctl.deny
    ensures Rejected(v, secret, t, s.epoch) ==> Serve(v, secret, s, t) == s
  {
    if Rejected(v, secret, t, s.epoch) {
      RejectedDoesNothing(v, secret, s, t);
    } else if t.PollTick? {
      var fs :| Brings(v, secret, s.epoch, t, fs);
      BroughtIsApplied(v, secret, s, t, fs);
      ApplyAllAccounts(t.host, s.ctl, fs.forbid);
    }
  }

  /** Across any sequence of polls and kill switches the accepted epoch never decreases and
      the deny map only grows. */
  lemma {:induction false} FeedSafety(v: Verifier, secret: string, s: Server, ts: seq<Turn>, us: seq<Turn>)
    ensures ServeAll(v, secret, s, ts).epoch <= ServeAll(v, secret, s, ts + us).epoch
    ensures ServeAll(v, secret, s, ts).ctl.deny <= ServeAll(v, secret, s, ts + us).ctl.deny
    decreases |us|
  {
    if us == [] {
      assert ts + us == ts;
    } else {
      var most := us[..|us| - 1];
      FeedSafety(v, secret, s, ts, most);
      assert (ts + us)[..|ts + us| - 1] == ts + most;
      ServeStepSafe(v, secret, ServeAll(v, secret, s, ts + most), us[|us| - 1]);
    }
  }

  /** No denial without authority: every denial after any run was there at the start or was
      asked for by an entry of a set that was signed and not older than the epoch then accepted. */
  lemma {:induction false} DenialsAreAuthorised(v: Verifier, secret: string, s: Server, ts: seq<Turn>, cg: nat, ino: nat)
    requires (cg, ino) in ServeAll(v, secret, s, ts).ctl.deny && (cg, ino) !in s.ctl.deny
    ensures exists i :: 0 <= i < |ts| && Authorises(v, secret, ServeAll(v, secret, s, ts[..i]).epoch, ts[i], cg, ino)
  {
    var most, last := ts[..|ts| - 1], ts[|ts| - 1];
    var t := ServeAll(v, secret, s, most);
    if (cg, ino) in t.ctl.deny {
      DenialsAreAuthorised(v, secret, s, most, cg, ino);
      var i :| 0 <= i < |most| && Authorises(v, secret, ServeAll(v, secret, s, most[..i]).epoch, most[i], cg, ino);
      assert most[..i] == ts[..i] && most[i] == ts[i];
    } else {
      NewDenialIsAuthorised(v, secret, t, last, cg, ino);
      assert ts[..|ts| - 1] == most;
    }
  }

  lemma NewDenialIsAuthorised(v: Verifier, secret: string, s: Server, t: Turn, cg: nat, ino: nat)
    requires (cg, ino) in Serve(v, secret, s, t).ctl.deny && (cg, ino) !in s.ctl.deny
    ensures Authorises(v, secret, s.epoch, t, cg, ino)
  {
    ServeStepSafe(v, secret, s, t);
    var fs :| Brings(v, secret, s.epoch, t, fs);
    BroughtIsApplied(v, secret, s, t, fs);
    ApplyAllAccounts(t.host, s.ctl, fs.forbid);
    var e :| e in fs.forbid && CgroupOf(t.host, e) == Some(cg) && t.host.inodeOf(e.path) == Some(ino);
  }

  ghost predicate Authorises(v: Verifier, secret: string, epoch: int, t: Turn, cg: nat, ino: nat) {
    exists fs :: Brings(v, secret, epoch, t, fs) && AsksFor(t, fs, cg, ino)
  }

  ghost predicate AsksFor(t: Turn, fs: ForbidSet, cg: nat, ino: nat) {
    t.PollTick? && exists e :: e in fs.forbid && CgroupOf(t.host, e) == Some(cg) && t.host.inodeOf(e.path) == Some(ino)
  }

  /** The turn carries a signature that matches its text under the secret. */
  ghost predicate Signed(v: Verifier, secret: string, t: Turn) {
    t.PollTick? && t.raw.Some? && v.parseEnvelope(t.raw.value).Some?
    && v.parseEnvelope(t.raw.value).value.sig == v.mac(secret, v.parseEnvelope(t.raw.value).value.canonical)
  }

  /** Without the secret nothing moves: in a run none of whose turns is signed, the deny map and
      the epoch never change and no cgroup is enrolled. */
  lemma {:induction false} ForgeriesDoNothing(v: Verifier, secret: string, s: Server, ts: seq<Turn>)
    requires forall t :: t in ts ==> !Signed(v, secret, t)
    ensures var r := ServeAll(v, secret, s, ts);
            r.ctl.deny == s.ctl.deny && r.epoch == s.epoch && r.ctl.enrolled <= s.ctl.enrolled
  {
    if ts != [] {
      var most, last := ts[..|ts| - 1], ts[|ts| - 1];
      assert last in ts && forall t :: t in most ==> t in ts;
      ForgeriesDoNothing(v, secret, s, most);
      var mid := ServeAll(v, secret, s, most);
      if last.PollTick? {
        assert forall fs :: !Brings(v, secret, mid.epoch, last, fs);
        RejectedDoesNothing(v, secret, mid, last);
      }
    }
  }

  /** The turn brings a set of this epoch and applies it without error. */
  ghost predicate Accepts(v: Verifier, secret: string, s: Server, t: Turn, epoch: int) {
    exists fs :: Brings(v, secret, s.epoch, t, fs) && fs.epoch == epoch && ApplyAll(t.host, s.ctl, fs.forbid).ok
  }

  /** No replay: once a set of some epoch is accepted, no later turn of any run that brings an
      older set changes anything. */
  lemma NoReplay(v: Verifier, secret: string, s: Server, ts: seq<Turn>, i: nat, j: nat, epoch: int, fs: ForbidSet)
    requires i < j < |ts| && Accepts(v, secret, ServeAll(v, secret, s, ts[..i]), ts[i], epoch)
    requires ts[j].PollTick? && ts[j].raw.Some? && Authentic(v, secret, ts[j].raw.value, fs) && fs.epoch < epoch
    ensures ServeAll(v, secret, s, ts[..j + 1]) == ServeAll(v, secret, s, ts[..j])
  {
    var at := ServeAll(v, secret, s, ts[..i]);
    var set1 :| Brings(v, secret, at.epoch, ts[i], set1) && set1.epoch == epoch && ApplyAll(ts[i].host, at.ctl, set1.forbid).ok;
    BroughtIsApplied(v, secret, at, ts[i], set1);
    ServePush(v, secret, s, ts[..i], ts[i]);
    assert ts[..i + 1] == ts[..i] + [ts[i]];
    FeedSafety(v, secret, s, ts[..i + 1], ts[i + 1..j]);
    assert ts[..j] == ts[..i + 1] + ts[i + 1..j];
    var now := ServeAll(v, secret, s, ts[..j]);
    assert now.epoch >= epoch;
    forall other ensures !Brings(v, secret, now.epoch, ts[j], other) {
      if Authentic(v, secret, ts[j].raw.value, other) {
        assert other == fs;
      }
    }
    RejectedDoesNothing(v, secret, now, ts[j]);
    ServePush(v, secret, s, ts[..j], ts[j]);
    assert ts[..j + 1] == ts[..j] + [ts[j]];
  }

  // ----- how long the kill switch lasts -------------------------------------------------

  /** The first entry whose agent this host knows resolves to a cgroup. */
  ghost predicate LeadsToCgroup(h: Host, es: seq<Entry>) {
    exists i :: 0 <= i < |es| && FirstKnownAt(h, es, i) && CgroupOf(h, es[i]).Some?
  }

  ghost predicate FirstKnownAt(h: Host, es: seq<Entry>, i: nat) {
    i < |es| && es[i].agentId in h.agents && forall j :: 0 <= j < i ==> es[j].agentId !in h.agents
  }

  ghost predicate NoneKnown(h: Host, es: seq<Entry>) {
    forall i :: 0 <= i < |es| ==> es[i].agentId !in h.agents
  }

  lemma EnrolledGrows(h: Host, p: Progress, e: Entry)
    ensures p.ctl.enrolled <= ApplyOne(h, p, e).ctl.enrolled
  {
  }

  lemma {:induction false} UnknownAgentsDoNothing(h: Host, c: Control, es: seq<Entry>)
    requires NoneKnown(h, es)
    ensures var p := ApplyAll(h, c, es); p.ok && p.ctl == c && p.memo == map[]
  {
    if es != [] {
      UnknownAgentsDoNothing(h, c, es[..|es| - 1]);
    }
  }

  /** The first known agent decides, whatever comes after it. */
  lemma {:induction false} FirstKnownDecides(h: Host, c: Control, es: seq<Entry>, i: nat)
    requires c.enrolled == {} && FirstKnownAt(h, es, i)
    ensures CgroupOf(h, es[i]).Some? ==> CgroupOf(h, es[i]).value in ApplyAll(h, c, es).ctl.enrolled
    ensures CgroupOf(h, es[i]).None? ==> !ApplyAll(h, c, es).ok && ApplyAll(h, c, es).ctl.enrolled == {}
  {
    var most, last := es[..|es| - 1], es[|es| - 1];
    if i == |most| {
      UnknownAgentsDoNothing(h, c, most);
    } else {
      assert most[i] == es[i];
      FirstKnownDecides(h, c, most, i);
      EnrolledGrows(h, ApplyAll(h, c, most), last);
    }
  }

  lemma {:induction false} SomeFirstKnown(h: Host, es: seq<Entry>)
    requires !NoneKnown(h, es)
    ensures exists i: nat :: FirstKnownAt(h, es, i)
  {
    var most := es[..|es| - 1];
    if NoneKnown(h, most) {
      assert FirstKnownAt(h, es, |most|);
    } else {
      SomeFirstKnown(h, most);
      var i: nat :| FirstKnownAt(h, most, i);
      assert FirstKnownAt(h, es, i);
    }
  }

  /** Applying a set to an ungoverned host governs something exactly when its first known agent
      resolves; errors later in the set do not undo that. */
  lemma ApplyGovernsIff(h: Host, c: Control, es: seq<Entry>)
    requires c.enrolled == {}
    ensures ApplyAll(h, c, es).ctl.enrolled != {} <==> LeadsToCgroup(h, es)
  {
    if NoneKnown(h, es) {
      UnknownAgentsDoNothing(h, c, es);
    } else {
      SomeFirstKnown(h, es);
      var i: nat :| FirstKnownAt(h, es, i);
      FirstKnownDecides(h, c, es, i);
      assert forall j: nat :: FirstKnownAt(h, es, j) ==> j == i;
    }
  }

  /** The turn re-arms an ungoverned host: an authentic, current set, accepted or not, whose
      first known agent resolves. */
  ghost predicate Arms(v: Verifier, secret: string, epoch: int, t: Turn) {
    exists fs :: Brings(v, secret, epoch, t, fs) && LeadsToCgroup(t.host, fs.forbid)
  }

  lemma DisarmedStep(v: Verifier, secret: string, s: Server, t: Turn)
    requires s.ctl.enrolled == {}
    ensures Serve(v, secret, s, t).ctl.enrolled == {} <==> !Arms(v, secret, s.epoch, t)
  {
    if Rejected(v, secret, t, s.epoch) {
      RejectedDoesNothing(v, secret, s, t);
    } else if t.PollTick? {
      var fs :| Brings(v, secret, s.epoch, t, fs);
      BroughtIsApplied(v, secret, s, t, fs);
      ApplyGovernsIff(t.host, s.ctl, fs.forbid);
      forall other | Brings(v, secret, s.epoch, t, other) ensures other == fs {
        BringsOne(v, secret, s.epoch, t, fs, other);
      }
    }
  }

  ghost predicate DisarmedThroughout(v: Verifier, secret: string, s: Server, ts: seq<Turn>) {
    forall i :: 0 <= i <= |ts| ==> ServeAll(v, secret, s, ts[..i]).ctl.enrolled == {}
  }

  ghost predicate NeverArmed(v: Verifier, secret: string, s: Server, ts: seq<Turn>) {
    forall i :: 0 <= i < |ts| ==> !Arms(v, secret, ServeAll(v, secret, s, ts[..i]).epoch, ts[i])
  }

  lemma DisarmedPush(v: Verifier, secret: string, s: Server, ts: seq<Turn>, t: Turn)
    ensures DisarmedThroughout(v, secret, s, ts + [t])
       <==> DisarmedThroughout(v, secret, s, ts) && ServeAll(v, secret, s, ts + [t]).ctl.enrolled == {}
  {
    var all := ts + [t];
    assert forall i :: 0 <= i <= |ts| ==> all[..i] == ts[..i];
    assert all[..|all|] == all;
    if DisarmedThroughout(v, secret, s, all) {
      assert ServeAll(v, secret, s, all[..|all|]).ctl.enrolled == {};
      forall i | 0 <= i <= |ts| ensures ServeAll(v, secret, s, ts[..i]).ctl.enrolled == {} {
        assert ServeAll(v, secret, s, all[..i]).ctl.enrolled == {};
      }
    }
  }

  lemma NeverArmedPush(v: Verifier, secret: string, s: Server, ts: seq<Turn>, t: Turn)
    ensures NeverArmed(v, secret, s, ts + [t])
       <==> NeverArmed(v, secret, s, ts) && !Arms(v, secret, ServeAll(v, secret, s, ts).epoch, t)
  {
    var all := ts + [t];
    assert forall i :: 0 <= i < |ts| ==> all[..i] == ts[..i] && all[i] == ts[i];
    assert all[..|ts|] == ts && all[|ts|] == t;
    if NeverArmed(v, secret, s, all) {
      assert !Arms(v, secret, ServeAll(v, secret, s, all[..|ts|]).epoch, all[|ts|]);
      forall i | 0 <= i < |ts| ensures !Arms(v, secret, ServeAll(v, secret, s, ts[..i]).epoch, ts[i]) {
        assert !Arms(v, secret, ServeAll(v, secret, s, all[..i]).epoch, all[i]);
      }
    }
  }

  lemma ServePush(v: Verifier, secret: string, s: Server, ts: seq<Turn>, t: Turn)
    ensures ServeAll(v, secret, s, ts + [t]) == Serve(v, secret, ServeAll(v, secret, s, ts), t)
  {
    assert (ts + [t])[..|ts|] == ts;
  }

  lemma {:induction false} DisarmedIffNeverArmed(v: Verifier, secret: string, s: Server, ts: seq<Turn>)
    requires s.ctl.enrolled == {}
    ensures DisarmedThroughout(v, secret, s, ts) <==> NeverArmed(v, secret, s, ts)
    decreases |ts|
  {
    if ts != [] {
      var most, last := ts[..|ts| - 1], ts[|ts| - 1];
      assert ts == most + [last];
      DisarmedIffNeverArmed(v, secret, s, most);
      DisarmedPush(v, secret, s, most, last);
      NeverArmedPush(v, secret, s, most, last);
      if DisarmedThroughout(v, secret, s, most) {
        assert most[..|most|] == most;
        ServePush(v, secret, s, most, last);
        DisarmedStep(v, secret, ServeAll(v, secret, s, most), last);
      }
    }
  }

  /** How long the kill switch lasts, exactly: after a fault-free kill the host stays ungoverned
      over a sequence of turns if and only if no turn of it arms, that is, no authentic and
      current set has a first known agent that resolves; and while it lasts every hook returns
      the verdict it was given. */
  lemma KillSwitchLasts(v: Verifier, secret: string, s: Server, ts: seq<Turn>, cg: nat, c: Check, ret: int)
    ensures var k := Serve(v, secret, s, Kill({}));
            && (DisarmedThroughout(v, secret, k, ts) <==> NeverArmed(v, secret, k, ts))
            && (NeverArmed(v, secret, k, ts) ==> HookVerdict(ServeAll(v, secret, k, ts).ctl, cg, c, ret) == ret)
  {
    var k := Serve(v, secret, s, Kill({}));
    DisarmedIffNeverArmed(v, secret, k, ts);
    if DisarmedThroughout(v, secret, k, ts) {
      assert ts[..|ts|] == ts;
      DisarmedIsInert(ServeAll(v, secret, k, ts).ctl, cg, c, ret);
    }
  }

  /** A poll that fails re-arms too: the first entry enrols its agent before the second stops
      the application. */
  lemma FailedPollRearms(v: Verifier, secret: string, s: Server, raw: seq<int>, h: Host, e1: Entry, e2: Entry, epoch: int, cg: nat)
    requires Authentic(v, secret, raw, ForbidSet([e1, e2], epoch)) && epoch >= s.epoch
    requires CgroupOf(h, e1) == Some(cg) && e2.agentId in h.agents && CgroupOf(h, e2).None?
    ensures var k := Serve(v, secret, s, Kill({}));
            && Poll(v, k.ctl, Some(raw), secret, h, k.epoch).err == Some(ApplyFailed)
            && cg in Serve(v, secret, k, PollTick(Some(raw), h)).ctl.enrolled
  {
    var k, es := Serve(v, secret, s, Kill({})), [e1, e2];
    VerifiesIffAuthentic(v, secret, raw, ForbidSet(es, epoch));
    assert FirstKnownAt(h, es, 0);
    FirstKnownDecides(h, k.ctl, es, 0);
    ApplyAllAccounts(h, k.ctl, es);
    assert e2 in es && !InForce(h, ApplyAll(h, k.ctl, es).ctl, e2);
  }

  /** What an accepted poll makes of a kill: governed are then exactly the cgroups a faulted kill
      left and those the poll's entries name. */
  lemma AcceptedPollRearms(v: Verifier, secret: string, s: Server, left: set<nat>, t: Turn, fs: ForbidSet)
    requires Brings(v, secret, s.epoch, t, fs)
    requires ApplyAll(t.host, Serve(v, secret, s, Kill(left)).ctl, fs.forbid).ok
    ensures forall cg :: cg in ServeAll(v, secret, s, [Kill(left), t]).ctl.enrolled
                    <==> (cg in s.ctl.enrolled && cg in left) || exists e :: e in fs.forbid && CgroupOf(t.host, e) == Some(cg)
  {
    var kill := Kill(left);
    var k, es, h := Serve(v, secret, s, kill), fs.forbid, t.host;
    ServePush(v, secret, s, [], kill);
    ServePush(v, secret, s, [kill], t);
    assert [] + [kill] == [kill] && [kill] + [t] == [kill, t];
    BroughtIsApplied(v, secret, k, t, fs);
    ApplyAllAccounts(h, k.ctl, es);
    var r := ApplyAll(h, k.ctl, es);
    forall cg
      ensures cg in r.ctl.enrolled <==> cg in k.ctl.enrolled || exists e :: e in es && CgroupOf(h, e) == Some(cg)
    {
      if e :| e in es && CgroupOf(h, e) == Some(cg) {
        assert InForce(h, r.ctl, e);
      }
    }
  }

  /** After an accepted poll an entry's inode is locked against its agent: every hook refuses what
      threatens it. */
  lemma AppliedEntryIsEnforced(v: Verifier, secret: string, s: Server, t: Turn, fs: ForbidSet, e: Entry, c: Check, ret: int)
    requires Brings(v, secret, s.epoch, t, fs) && ApplyAll(t.host, s.ctl, fs.forbid).ok && e in fs.forbid
    requires CgroupOf(t.host, e).Some? && t.host.inodeOf(e.path).Some? && t.host.inodeOf(e.path).value in Threatened(c)
    ensures HookVerdict(Serve(v, secret, s, t).ctl, CgroupOf(t.host, e).value, c, ret) != 0
  {
    BroughtIsApplied(v, secret, s, t, fs);
    ApplyAllAccounts(t.host, s.ctl, fs.forbid);
    var r := ApplyAll(t.host, s.ctl, fs.forbid).ctl;
    assert InForce(t.host, r, e);
    ThreatIsRefused(r, CgroupOf(t.host, e).value, t.host.inodeOf(e.path).value, c, ret);
  }

  // ----- what the two counters count ----------------------------------------------------

  /** The entry takes effect on this host. */
  predicate Resolves(h: Host, e: Entry) { CgroupOf(h, e).Some? && h.inodeOf(e.path).Some? }

  function ResolvingCount(h: Host, es: seq<Entry>): nat {
    if es == [] then 0
    else ResolvingCount(h, es[..|es| - 1]) + (if Resolves(h, es[|es| - 1]) then 1 else 0)
  }

  /** Applied are exactly the entries that resolve, skipped the others. */
  lemma {:induction false} CountersCount(h: Host, c: Control, es: seq<Entry>)
    requires ApplyAll(h, c, es).ok
    ensures ApplyAll(h, c, es).applied == ResolvingCount(h, es)
    ensures ApplyAll(h, c, es).skipped == |es| - ResolvingCount(h, es)
  {
    ApplyAllAccounts(h, c, es);
    if es != [] {
      var most, last := es[..|es| - 1], es[|es| - 1];
      CountersCount(h, c, most);
      ApplyAllAccounts(h, c, most);
      var p := ApplyAll(h, c, most);
      if last.agentId in h.agents {
        var q := EnrollAgent(h, p, last.agentId, h.agents[last.agentId]);
        assert q.applied == p.applied && (q.ok ==> CgroupOf(h, last).Some?);
      }
    }
  }
}
