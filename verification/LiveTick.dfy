/**
 A reconcile tick as the kernel sees it: one map write at a time, in any order within each
 loop, with hooks running in between. The two loops of new entries come before the two of
 stale ones, and the agent's memory of what it installed changes only at the end.
 */
module LiveTick {
  import opened Wrappers
  import opened Wire
  import opened Egress
  import opened Reconcile

  // ----- one cache ----------------------------------------------------------------------

  /** What a tick has done to one cache so far: the image to install, the keys already put and
      the stale keys already deleted. */
  datatype Progress<K> = Progress(next: set<K>, put: set<K>, gone: set<K>)

  ghost predicate Sensible<K>(p: Progress<K>, warmed: set<K>) {
    p.put <= p.next && p.gone <= warmed - p.next
  }

  /** A cache in the middle of a tick that started from `base`. */
  function Partial<K>(base: map<K, byte>, p: Progress<K>): map<K, byte> {
    map k | k in base.Keys + p.put && k !in p.gone :: if k in p.put then TEX_FORBID else base[k]
  }

  predicate Done<K>(p: Progress<K>, warmed: set<K>) { p.put == p.next && p.gone == warmed - p.next }

  lemma StartsUnchanged<K>(base: map<K, byte>, next: set<K>)
    ensures Partial(base, Progress(next, {}, {})) == base
  {
  }

  lemma PutExtends<K>(base: map<K, byte>, p: Progress<K>, warmed: set<K>, k: K)
    requires Sensible(p, warmed) && k in p.next
    ensures Partial(base, p)[k := TEX_FORBID] == Partial(base, p.(put := p.put + {k}))
  {
  }

  lemma DeleteExtends<K>(base: map<K, byte>, p: Progress<K>, k: K)
    ensures Partial(base, p) - {k} == Partial(base, p.(gone := p.gone + {k}))
  {
  }

  /** Once every write has been made, the cache is what the tick as one step would leave. */
  lemma EndsReconciled<K>(base: map<K, byte>, warmed: set<K>, p: Progress<K>)
    requires Done(p, warmed)
    ensures Partial(base, p) == Reconciled(base, warmed, p.next)
  {
  }

  // ----- the system ---------------------------------------------------------------------

  datatype Phase = Idle | Working(fetched: seq<ForbidDst>, p4: Progress<Key4>, p6: Progress<Key6>)

  datatype Live = Live(kernel: Kernel, warmed4: set<Key4>, warmed6: set<Key6>, phase: Phase)

  datatype Micro =
    | Begin(fetched: seq<ForbidDst>) | FetchFails
    | Put4(key4: Key4) | Put6(key6: Key6) | Delete4(key4: Key4) | Delete6(key6: Key6)
    | Finish | Traffic(event: Egress.Event)

  predicate AllPut(ph: Phase)
    requires ph.Working?
  {
    ph.p4.put == ph.p4.next && ph.p6.put == ph.p6.next
  }

  /** What the agent may do next; only the agent writes the caches. */
  predicate Enabled(s: Live, m: Micro) {
    match m
    case Traffic(e) => !e.Warm?
    case Begin(_) => s.phase.Idle?
    case FetchFails => s.phase.Idle?
    case Put4(k) => s.phase.Working? && k in s.phase.p4.next
    case Put6(k) => s.phase.Working? && k in s.phase.p6.next
    case Delete4(k) => s.phase.Working? && AllPut(s.phase) && k in s.warmed4 && k !in s.phase.p4.next
    case Delete6(k) => s.phase.Working? && AllPut(s.phase) && k in s.warmed6 && k !in s.phase.p6.next
    case Finish => s.phase.Working? && Done(s.phase.p4, s.warmed4) && Done(s.phase.p6, s.warmed6)
  }

  function Move(s: Live, m: Micro): Live
    requires Enabled(s, m)
  {
    var k := s.kernel;
    match m
    case Traffic(e) => s.(kernel := Step(k, e))
    case Begin(l) => s.(phase := Working(l, Progress(Image4(l), {}, {}), Progress(Image6(l), {}, {})))
    case FetchFails => s
    case Put4(x) =>
      s.(kernel := k.(verdicts4 := k.verdicts4[x := TEX_FORBID]), phase := s.phase.(p4 := s.phase.p4.(put := s.phase.p4.put + {x})))
    case Put6(x) =>
      s.(kernel := k.(verdicts6 := k.verdicts6[x := TEX_FORBID]), phase := s.phase.(p6 := s.phase.p6.(put := s.phase.p6.put + {x})))
    case Delete4(x) =>
      s.(kernel := k.(verdicts4 := k.verdicts4 - {x}), phase := s.phase.(p4 := s.phase.p4.(gone := s.phase.p4.gone + {x})))
    case Delete6(x) =>
      s.(kernel := k.(verdicts6 := k.verdicts6 - {x}), phase := s.phase.(p6 := s.phase.p6.(gone := s.phase.p6.gone + {x})))
    case Finish => Live(k, s.phase.p4.next, s.phase.p6.next, Idle)
  }

  ghost predicate Legal(s: Live, ms: seq<Micro>)
    decreases |ms|, 0
  {
    ms == [] || (Legal(s, ms[..|ms| - 1]) && Enabled(MoveAll(s, ms[..|ms| - 1]), ms[|ms| - 1]))
  }

  ghost function MoveAll(s: Live, ms: seq<Micro>): Live
    requires Legal(s, ms)
    decreases |ms|, 1
  {
    if ms == [] then s else Move(MoveAll(s, ms[..|ms| - 1]), ms[|ms| - 1])
  }

  // ----- refinement ---------------------------------------------------------------------

  /** The caches that whole ticks would have left, and the set last served in full. */
  datatype Coarse = Coarse(c4: Cache<Key4>, c6: Cache<Key6>, served: seq<ForbidDst>)

  /** The whole ticks a fine-grained run has completed. */
  function CoarseStep(c: Coarse, s: Live, m: Micro): Coarse {
    if m.Finish? && s.phase.Working? then
      Coarse(TickCache(c.c4, Image4(s.phase.fetched)), TickCache(c.c6, Image6(s.phase.fetched)), s.phase.fetched)
    else c
  }

  ghost function CoarseAll(c: Coarse, s: Live, ms: seq<Micro>): Coarse
    requires Legal(s, ms)
    decreases |ms|
  {
    if ms == [] then c
    else CoarseStep(CoarseAll(c, s, ms[..|ms| - 1]), MoveAll(s, ms[..|ms| - 1]), ms[|ms| - 1])
  }

  /** The live caches are the coarse ones, up to the writes of the tick in progress. */
  ghost predicate Refines(s: Live, c: Coarse) {
    && s.warmed4 == c.c4.warmed == Image4(c.served) && s.warmed6 == c.c6.warmed == Image6(c.served)
    && Installed(c.c4) && Installed(c.c6)
    && match s.phase
       case Idle => s.kernel.verdicts4 == c.c4.entries && s.kernel.verdicts6 == c.c6.entries
       case Working(l, p4, p6) =>
         && p4.next == Image4(l) && p6.next == Image6(l)
         && Sensible(p4, s.warmed4) && Sensible(p6, s.warmed6)
         && s.kernel.verdicts4 == Partial(c.c4.entries, p4) && s.kernel.verdicts6 == Partial(c.c6.entries, p6)
  }

  ghost predicate Installed<K>(c: Cache<K>) {
    forall k :: k in c.warmed ==> k in c.entries && c.entries[k] == TEX_FORBID
  }

  lemma TickInstalls<K>(c: Cache<K>, next: set<K>)
    ensures Installed(TickCache(c, next))
  {
  }

  lemma WriteRefines(s: Live, c: Coarse, m: Micro)
    requires Refines(s, c) && Enabled(s, m) && (m.Put4? || m.Put6? || m.Delete4? || m.Delete6?)
    ensures Refines(Move(s, m), c)
  {
    match m {
      case Put4(k) => PutExtends(c.c4.entries, s.phase.p4, s.warmed4, k);
      case Put6(k) => PutExtends(c.c6.entries, s.phase.p6, s.warmed6, k);
      case Delete4(k) => DeleteExtends(c.c4.entries, s.phase.p4, k);
      case Delete6(k) => DeleteExtends(c.c6.entries, s.phase.p6, k);
    }
  }

  lemma MoveRefines(s: Live, c: Coarse, m: Micro)
    requires Refines(s, c) && Enabled(s, m)
    ensures Refines(Move(s, m), CoarseStep(c, s, m))
  {
    match m {
      case Traffic(e) => HooksKeepCaches(s.kernel, e);
      case Begin(l) =>
        StartsUnchanged(c.c4.entries, Image4(l));
        StartsUnchanged(c.c6.entries, Image6(l));
      case Finish =>
        EndsReconciled(c.c4.entries, s.warmed4, s.phase.p4);
        EndsReconciled(c.c6.entries, s.warmed6, s.phase.p6);
        TickInstalls(c.c4, s.phase.p4.next);
        TickInstalls(c.c6, s.phase.p6.next);
      case FetchFails =>
      case _ => WriteRefines(s, c, m);
    }
  }

  ghost predicate Fresh(s: Live) { s.phase.Idle? && s.warmed4 == {} && s.warmed6 == {} }

  function Start(s: Live): Coarse { Coarse(Cache(s.kernel.verdicts4, {}), Cache(s.kernel.verdicts6, {}), []) }

  /** Fine-grained ticks refine whole ones: at every moment of every run the caches are those of
      the completed ticks, up to the writes of the tick in progress. */
  lemma LiveRefines(s: Live, ms: seq<Micro>)
    requires Fresh(s) && Legal(s, ms)
    ensures Refines(MoveAll(s, ms), CoarseAll(Start(s), s, ms))
  {
    RefinesOn(s, Start(s), ms);
  }

  lemma {:induction false} RefinesOn(s: Live, c: Coarse, ms: seq<Micro>)
    requires Refines(s, c) && Legal(s, ms)
    ensures Refines(MoveAll(s, ms), CoarseAll(c, s, ms))
    decreases |ms|
  {
    if ms != [] {
      var most := ms[..|ms| - 1];
      RefinesOn(s, c, most);
      MoveRefines(MoveAll(s, most), CoarseAll(c, s, most), ms[|ms| - 1]);
    }
  }

  // ----- nothing slips through during a tick ----------------------------------------------

  /** A key of the completed ticks is forbidden until its own delete, a new one from its own put. */
  lemma KeptIsForbidden<K>(c: Cache<K>, p: Progress<K>, k: K)
    requires Installed(c) && Sensible(p, c.warmed)
    requires (k in c.warmed && k !in p.gone) || k in p.put
    ensures k in Partial(c.entries, p) && Partial(c.entries, p)[k] == TEX_FORBID
  {
  }

  /** In the cache the hook reads, the tick in progress has put d's key. */
  ghost predicate Written(ph: Phase, d: ForbidDst, h: Hook)
    requires ph.Working?
  {
    if h.V6() then Keys6(d) <= ph.p6.put else Keys4(d) <= ph.p4.put
  }

  /** In the cache the hook reads, the tick in progress has deleted d's key. */
  ghost predicate Deleted(ph: Phase, d: ForbidDst, h: Hook)
    requires ph.Working?
  {
    if h.V6() then Keys6(d) * ph.p6.gone != {} else Keys4(d) * ph.p4.gone != {}
  }

  /** At any moment: listed by the completed ticks and not yet deleted by the one in progress, or
      already written by it. */
  ghost predicate Held(s: Live, c: Coarse, d: ForbidDst, h: Hook) {
    match s.phase
    case Idle => d in c.served
    case Working(_, _, _) => (d in c.served && !Deleted(s.phase, d, h)) || Written(s.phase, d, h)
  }

  /** What both the served set and the set being installed list is never deleted. */
  lemma KeptIsNotDeleted(s: Live, c: Coarse, d: ForbidDst, h: Hook)
    requires Refines(s, c) && s.phase.Working? && d in s.phase.fetched
    ensures !Deleted(s.phase, d, h)
  {
    ListedIsInImage(s.phase.fetched, d);
  }

  lemma HeldIsForbidden(s: Live, c: Coarse, d: ForbidDst, call: Call)
    requires Refines(s, c) && Held(s, c, d, call.hook) && Names(d, call)
    ensures Forbidden(s.kernel, call.hook, call.dst)
  {
    if d in c.served {
      ListedIsInImage(c.served, d);
    }
    if call.hook.V6() {
      var k := (Ip6ToBE(d.ip.value), Htons(d.port));
      assert Keys6(d) == {k};
      if s.phase.Working? {
        assert (k in Keys6(d) * s.phase.p6.gone) == (k in s.phase.p6.gone);
        KeptIsForbidden(c.c6, s.phase.p6, k);
      }
    } else {
      var k := (IpToBE(To4(d.ip.value).value), Htons(d.port));
      assert Keys4(d) == {k};
      if s.phase.Working? {
        assert (k in Keys4(d) * s.phase.p4.gone) == (k in s.phase.p4.gone);
        KeptIsForbidden(c.c4, s.phase.p4, k);
      }
    }
  }

  /** Refused throughout: over every interleaving of single map writes with traffic, at every
      moment, a destination in the served set is refused until the tick in progress deletes its
      own key, and one being installed from the moment its key is put; by the IPv4 hooks and,
      mapped, by the IPv6 hooks. */
  lemma RefusedThroughout(s: Live, ms: seq<Micro>, d: ForbidDst, call: Call)
    requires Fresh(s) && Legal(s, ms)
    requires Held(MoveAll(s, ms), CoarseAll(Start(s), s, ms), d, call.hook) && Names(d, call)
    requires var k := MoveAll(s, ms).kernel; k.cfg.Some? ==> !IsProxy(k.cfg.value, call.hook, call.dst)
    ensures !Mediate(MoveAll(s, ms).kernel, call).allow
  {
    LiveRefines(s, ms);
    HeldIsForbidden(MoveAll(s, ms), CoarseAll(Start(s), s, ms), d, call);
  }

  /** No gap for a destination that stays listed: in the served set and in the one being
      installed, it is refused at every moment of the tick. */
  lemma KeptIsRefused(s: Live, ms: seq<Micro>, d: ForbidDst, call: Call)
    requires Fresh(s) && Legal(s, ms) && d in CoarseAll(Start(s), s, ms).served && Names(d, call)
    requires var t := MoveAll(s, ms); t.phase.Working? ==> d in t.phase.fetched
    requires var k := MoveAll(s, ms).kernel; k.cfg.Some? ==> !IsProxy(k.cfg.value, call.hook, call.dst)
    ensures !Mediate(MoveAll(s, ms).kernel, call).allow
  {
    LiveRefines(s, ms);
    if MoveAll(s, ms).phase.Working? {
      KeptIsNotDeleted(MoveAll(s, ms), CoarseAll(Start(s), s, ms), d, call.hook);
    }
    RefusedThroughout(s, ms, d, call);
  }

  /** Before any stale key is deleted, the whole fetched set is in force. */
  lemma DeletesComeLast(s: Live, c: Coarse, m: Micro, d: ForbidDst, h: Hook)
    requires Refines(s, c) && Enabled(s, m) && (m.Delete4? || m.Delete6? || m.Finish?)
    requires d in s.phase.fetched
    ensures Held(s, c, d, h)
  {
    ListedIsInImage(s.phase.fetched, d);
  }

  // ----- the agent's loops are such a run -------------------------------------------------

  lemma LegalPush(s: Live, ms: seq<Micro>, m: Micro)
    requires Legal(s, ms) && Enabled(MoveAll(s, ms), m)
    ensures Legal(s, ms + [m]) && MoveAll(s, ms + [m]) == Move(MoveAll(s, ms), m)
  {
    assert (ms + [m])[..|ms + [m]| - 1] == ms;
  }

  function Puts4(ks: seq<Key4>): seq<Micro> { seq(|ks|, i requires 0 <= i < |ks| => Put4(ks[i])) }
  function Puts6(ks: seq<Key6>): seq<Micro> { seq(|ks|, i requires 0 <= i < |ks| => Put6(ks[i])) }
  function Deletes4(ks: seq<Key4>): seq<Micro> { seq(|ks|, i requires 0 <= i < |ks| => Delete4(ks[i])) }
  function Deletes6(ks: seq<Key6>): seq<Micro> { seq(|ks|, i requires 0 <= i < |ks| => Delete6(ks[i])) }

  function Elements<K>(ks: seq<K>): set<K> { set k | k in ks }

  lemma ElementsPush<K>(ks: seq<K>)
    requires ks != []
    ensures Elements(ks) == Elements(ks[..|ks| - 1]) + {ks[|ks| - 1]}
    ensures forall k :: k in ks[..|ks| - 1] ==> k in ks
  {
    assert ks == ks[..|ks| - 1] + [ks[|ks| - 1]];
  }

  /** The same but for the caches, and as far into the same tick as given. */
  ghost predicate Reached(t: Live, u: Live, p4: Progress<Key4>, p6: Progress<Key6>) {
    && t.phase.Working? && u.phase == Working(t.phase.fetched, p4, p6)
    && u.warmed4 == t.warmed4 && u.warmed6 == t.warmed6
    && u.kernel == t.kernel.(verdicts4 := u.kernel.verdicts4, verdicts6 := u.kernel.verdicts6)
  }

  lemma Puts4Push(ms: seq<Micro>, ks: seq<Key4>)
    requires ks != []
    ensures ms + Puts4(ks) == ms + Puts4(ks[..|ks| - 1]) + [Put4(ks[|ks| - 1])]
  {
  }

  lemma Puts6Push(ms: seq<Micro>, ks: seq<Key6>)
    requires ks != []
    ensures ms + Puts6(ks) == ms + Puts6(ks[..|ks| - 1]) + [Put6(ks[|ks| - 1])]
  {
  }

  lemma Deletes4Push(ms: seq<Micro>, ks: seq<Key4>)
    requires ks != []
    ensures ms + Deletes4(ks) == ms + Deletes4(ks[..|ks| - 1]) + [Delete4(ks[|ks| - 1])]
  {
  }

  lemma Deletes6Push(ms: seq<Micro>, ks: seq<Key6>)
    requires ks != []
    ensures ms + Deletes6(ks) == ms + Deletes6(ks[..|ks| - 1]) + [Delete6(ks[|ks| - 1])]
  {
  }

  function PutMore<K>(p: Progress<K>, ks: seq<K>): Progress<K> { p.(put := p.put + Elements(ks)) }

  function GoneMore<K>(p: Progress<K>, ks: seq<K>): Progress<K> { p.(gone := p.gone + Elements(ks)) }

  lemma MorePush<K>(p: Progress<K>, ks: seq<K>)
    requires ks != []
    ensures var most, last := ks[..|ks| - 1], ks[|ks| - 1];
      && PutMore(p, ks) == PutMore(p, most).(put := PutMore(p, most).put + {last})
      && GoneMore(p, ks) == GoneMore(p, most).(gone := GoneMore(p, most).gone + {last})
  {
    ElementsPush(ks);
  }

  lemma Put4Push(s: Live, ms: seq<Micro>, t: Live, p4: Progress<Key4>, p6: Progress<Key6>, k: Key4)
    requires Legal(s, ms) && Reached(t, MoveAll(s, ms), p4, p6) && k in p4.next
    ensures Legal(s, ms + [Put4(k)])
    ensures Reached(t, MoveAll(s, ms + [Put4(k)]), p4.(put := p4.put + {k}), p6)
  {
    LegalPush(s, ms, Put4(k));
  }

  lemma {:induction false} Puts4Legal(s: Live, ms: seq<Micro>, t: Live, p4: Progress<Key4>, p6: Progress<Key6>, ks: seq<Key4>)
    requires Legal(s, ms) && Reached(t, MoveAll(s, ms), p4, p6)
    requires Elements(ks) <= p4.next
    ensures Legal(s, ms + Puts4(ks)) && Reached(t, MoveAll(s, ms + Puts4(ks)), PutMore(p4, ks), p6)
    decreases |ks|
  {
    if ks == [] {
      assert ms + Puts4(ks) == ms;
    } else {
      var most, last := ks[..|ks| - 1], ks[|ks| - 1];
      ElementsPush(ks);
      Puts4Push(ms, ks);
      Puts4Legal(s, ms, t, p4, p6, most);
      Put4Push(s, ms + Puts4(most), t, PutMore(p4, most), p6, last);
      MorePush(p4, ks);
    }
  }

  lemma Put6Push(s: Live, ms: seq<Micro>, t: Live, p4: Progress<Key4>, p6: Progress<Key6>, k: Key6)
    requires Legal(s, ms) && Reached(t, MoveAll(s, ms), p4, p6) && k in p6.next
    ensures Legal(s, ms + [Put6(k)])
    ensures Reached(t, MoveAll(s, ms + [Put6(k)]), p4, p6.(put := p6.put + {k}))
  {
    LegalPush(s, ms, Put6(k));
  }

  lemma {:induction false} Puts6Legal(s: Live, ms: seq<Micro>, t: Live, p4: Progress<Key4>, p6: Progress<Key6>, ks: seq<Key6>)
    requires Legal(s, ms) && Reached(t, MoveAll(s, ms), p4, p6)
    requires Elements(ks) <= p6.next
    ensures Legal(s, ms + Puts6(ks)) && Reached(t, MoveAll(s, ms + Puts6(ks)), p4, PutMore(p6, ks))
    decreases |ks|
  {
    if ks == [] {
      assert ms + Puts6(ks) == ms;
    } else {
      var most, last := ks[..|ks| - 1], ks[|ks| - 1];
      ElementsPush(ks);
      Puts6Push(ms, ks);
      Puts6Legal(s, ms, t, p4, p6, most);
      Put6Push(s, ms + Puts6(most), t, p4, PutMore(p6, most), last);
      MorePush(p6, ks);
    }
  }

  lemma Delete4Push(s: Live, ms: seq<Micro>, t: Live, p4: Progress<Key4>, p6: Progress<Key6>, k: Key4)
    requires Legal(s, ms) && Reached(t, MoveAll(s, ms), p4, p6) && p4.put == p4.next && p6.put == p6.next && k in t.warmed4 && k !in p4.next
    ensures Legal(s, ms + [Delete4(k)])
    ensures Reached(t, MoveAll(s, ms + [Delete4(k)]), p4.(gone := p4.gone + {k}), p6)
  {
    LegalPush(s, ms, Delete4(k));
  }

  lemma {:induction false} Deletes4Legal(s: Live, ms: seq<Micro>, t: Live, p4: Progress<Key4>, p6: Progress<Key6>, ks: seq<Key4>)
    requires Legal(s, ms) && Reached(t, MoveAll(s, ms), p4, p6)
    requires p4.put == p4.next && p6.put == p6.next && Elements(ks) <= t.warmed4 - p4.next
    ensures Legal(s, ms + Deletes4(ks)) && Reached(t, MoveAll(s, ms + Deletes4(ks)), GoneMore(p4, ks), p6)
    decreases |ks|
  {
    if ks == [] {
      assert ms + Deletes4(ks) == ms;
    } else {
      var most, last := ks[..|ks| - 1], ks[|ks| - 1];
      ElementsPush(ks);
      Deletes4Push(ms, ks);
      Deletes4Legal(s, ms, t, p4, p6, most);
      Delete4Push(s, ms + Deletes4(most), t, GoneMore(p4, most), p6, last);
      MorePush(p4, ks);
    }
  }

  lemma Delete6Push(s: Live, ms: seq<Micro>, t: Live, p4: Progress<Key4>, p6: Progress<Key6>, k: Key6)
    requires Legal(s, ms) && Reached(t, MoveAll(s, ms), p4, p6) && p4.put == p4.next && p6.put == p6.next && k in t.warmed6 && k !in p6.next
    ensures Legal(s, ms + [Delete6(k)])
    ensures Reached(t, MoveAll(s, ms + [Delete6(k)]), p4, p6.(gone := p6.gone + {k}))
  {
    LegalPush(s, ms, Delete6(k));
  }

  lemma {:induction false} Deletes6Legal(s: Live, ms: seq<Micro>, t: Live, p4: Progress<Key4>, p6: Progress<Key6>, ks: seq<Key6>)
    requires Legal(s, ms) && Reached(t, MoveAll(s, ms), p4, p6)
    requires p4.put == p4.next && p6.put == p6.next && Elements(ks) <= t.warmed6 - p6.next
    ensures Legal(s, ms + Deletes6(ks)) && Reached(t, MoveAll(s, ms + Deletes6(ks)), p4, GoneMore(p6, ks))
    decreases |ks|
  {
    if ks == [] {
      assert ms + Deletes6(ks) == ms;
    } else {
      var most, last := ks[..|ks| - 1], ks[|ks| - 1];
      ElementsPush(ks);
      Deletes6Push(ms, ks);
      Deletes6Legal(s, ms, t, p4, p6, most);
      Delete6Push(s, ms + Deletes6(most), t, p4, GoneMore(p6, most), last);
      MorePush(p6, ks);
    }
  }

  /** The five loops of one tick, each in the order it happened to visit its keys. */
  datatype Visit = Visit(put4: seq<Key4>, put6: seq<Key6>, del4: seq<Key4>, del6: seq<Key6>)

  ghost predicate Visits(v: Visit, s: Live, l: seq<ForbidDst>) {
    && Elements(v.put4) == Image4(l) && Elements(v.put6) == Image6(l)
    && Elements(v.del4) == s.warmed4 - Image4(l) && Elements(v.del6) == s.warmed6 - Image6(l)
  }

  function Installs(l: seq<ForbidDst>, v: Visit): seq<Micro> { [Begin(l)] + Puts4(v.put4) + Puts6(v.put6) }

  function TickRun(l: seq<ForbidDst>, v: Visit): seq<Micro> {
    Writes(l, v) + [Finish]
  }

  lemma InstallsLegal(s: Live, l: seq<ForbidDst>, v: Visit)
    requires s.phase.Idle? && Visits(v, s, l)
    ensures Legal(s, Installs(l, v))
    ensures var t := MoveAll(s, Installs(l, v));
      && t.phase == Working(l, Progress(Image4(l), Image4(l), {}), Progress(Image6(l), Image6(l), {}))
      && t.warmed4 == s.warmed4 && t.warmed6 == s.warmed6
      && t.kernel == s.kernel.(verdicts4 := t.kernel.verdicts4, verdicts6 := t.kernel.verdicts6)
  {
    LegalPush(s, [], Begin(l));
    assert [] + [Begin(l)] == [Begin(l)];
    var begun, put4 := [Begin(l)], [Begin(l)] + Puts4(v.put4);
    var t := MoveAll(s, begun);
    var p4, p6 := t.phase.p4, t.phase.p6;
    Puts4Legal(s, begun, t, p4, p6, v.put4);
    Puts6Legal(s, put4, t, PutMore(p4, v.put4), p6, v.put6);
  }

  /** All the writes of a tick, up to its end. */
  function Writes(l: seq<ForbidDst>, v: Visit): seq<Micro> { Installs(l, v) + Deletes4(v.del4) + Deletes6(v.del6) }

  lemma WritesLegal(s: Live, l: seq<ForbidDst>, v: Visit)
    requires s.phase.Idle? && Visits(v, s, l)
    ensures Legal(s, Writes(l, v))
    ensures var t := MoveAll(s, Writes(l, v));
      && t.phase.Working? && t.phase.fetched == l && t.phase.p4.next == Image4(l) && t.phase.p6.next == Image6(l)
      && Enabled(t, Finish)
      && t.kernel == s.kernel.(verdicts4 := t.kernel.verdicts4, verdicts6 := t.kernel.verdicts6)
  {
    InstallsLegal(s, l, v);
    var put, del4 := Installs(l, v), Installs(l, v) + Deletes4(v.del4);
    var t := MoveAll(s, put);
    var p4, p6 := t.phase.p4, t.phase.p6;
    Deletes4Legal(s, put, t, p4, p6, v.del4);
    Deletes6Legal(s, del4, t, GoneMore(p4, v.del4), p6, v.del6);
  }

  /** What a whole tick leaves of the live system. */
  function Ticked(s: Live, l: seq<ForbidDst>): Live {
    var r := TickState(AgentState(s.kernel.verdicts4, s.kernel.verdicts6, s.warmed4, s.warmed6), Some(l));
    Live(s.kernel.(verdicts4 := r.v4, verdicts6 := r.v6), r.warmed4, r.warmed6, Idle)
  }

  lemma {:induction false} NoFinishNoTick(s: Live, c: Coarse, ms: seq<Micro>)
    requires Legal(s, ms) && Finish !in ms
    ensures CoarseAll(c, s, ms) == c
    decreases |ms|
  {
    if ms != [] {
      assert ms[|ms| - 1] in ms && forall m :: m in ms[..|ms| - 1] ==> m in ms;
      NoFinishNoTick(s, c, ms[..|ms| - 1]);
    }
  }

  /** The agent's loops, visiting their keys in any order, are a legal run of single writes, and
      with nothing in between they leave exactly what the tick as one step does. */
  lemma WarmIsLegal(s: Live, c: Coarse, l: seq<ForbidDst>, v: Visit)
    requires s.phase.Idle? && Refines(s, c) && Visits(v, s, l)
    ensures Legal(s, TickRun(l, v)) && MoveAll(s, TickRun(l, v)) == Ticked(s, l)
  {
    var ms := Writes(l, v);
    WritesLegal(s, l, v);
    LegalPush(s, ms, Finish);
    RefinesOn(s, c, ms);
    NoFinish(l, v);
    NoFinishNoTick(s, c, ms);
    MoveRefines(MoveAll(s, ms), c, Finish);
  }

  lemma NoFinish(l: seq<ForbidDst>, v: Visit)
    ensures Finish !in Writes(l, v)
  {
  }
}
