/**
 The agent's reconcile loop: each tick replaces the verdict-cache entries the agent itself
 installed by the image of the freshly fetched forbid set. A failed fetch is None.
 */
module Reconcile {
  import opened Wrappers
  import opened Wire
  import opened Egress

  /** A fetched destination; an address that does not parse is None. */
  datatype ForbidDst = ForbidDst(ip: Option<IPv6>, port: u16)

  type Key4 = (u32, u16)
  type Key6 = (Words, u16)

  function Keys4(d: ForbidDst): set<Key4> {
    if d.ip.None? then {}
    else
      match To4(d.ip.value)
      case None => {}
      case Some(v4) => {(IpToBE(v4), Htons(d.port))}
  }

  /** Every parsable destination is warmed in the v6 cache too, IPv4 ones in mapped form. */
  function Keys6(d: ForbidDst): set<Key6> {
    if d.ip.None? then {} else {(Ip6ToBE(d.ip.value), Htons(d.port))}
  }

  function Image4(l: seq<ForbidDst>): set<Key4> {
    if l == [] then {} else Image4(l[..|l| - 1]) + Keys4(l[|l| - 1])
  }

  function Image6(l: seq<ForbidDst>): set<Key6> {
    if l == [] then {} else Image6(l[..|l| - 1]) + Keys6(l[|l| - 1])
  }

  /** A cache after installing `next` and dropping what was installed before it. */
  function Reconciled<K>(cache: map<K, byte>, warmed: set<K>, next: set<K>): map<K, byte> {
    map k | k in cache.Keys + next && (k in next || k !in warmed) :: if k in next then TEX_FORBID else cache[k]
  }

  datatype AgentState = AgentState(v4: map<Key4, byte>, v6: map<Key6, byte>, warmed4: set<Key4>, warmed6: set<Key6>)

  function TickState(a: AgentState, fetched: Option<seq<ForbidDst>>): AgentState {
    match fetched
    case None => a
    case Some(l) =>
      AgentState(Reconciled(a.v4, a.warmed4, Image4(l)), Reconciled(a.v6, a.warmed6, Image6(l)), Image4(l), Image6(l))
  }

  method PutAll<K(==)>(cache: map<K, byte>, next: set<K>) returns (r: map<K, byte>)
    ensures r == map k | k in cache.Keys + next :: if k in next then TEX_FORBID else cache[k]
  {
    r := cache;
    var todo := next;
    while todo != {}
      invariant todo <= next
      invariant r == map k | k in cache.Keys + (next - todo) :: if k in next - todo then TEX_FORBID else cache[k]
    {
      var k :| k in todo;
      r := r[k := TEX_FORBID];
      todo := todo - {k};
    }
  }

  method DeleteStale<K(==)>(cache: map<K, byte>, warmed: set<K>, next: set<K>) returns (r: map<K, byte>)
    ensures r == map k | k in cache && (k in next || k !in warmed) :: cache[k]
  {
    r := cache;
    var todo := warmed;
    while todo != {}
      invariant todo <= warmed
      invariant r == map k | k in cache && (k in next || k !in warmed - todo) :: cache[k]
    {
      var k :| k in todo;
      if k !in next {
        r := r - {k};
      }
      todo := todo - {k};
    }
  }

  /** Put the new entries, then delete the installed ones that fell out of the set. */
  method ReconcileCache<K(==)>(cache: map<K, byte>, warmed: set<K>, next: set<K>) returns (r: map<K, byte>)
    ensures r == Reconciled(cache, warmed, next)
  {
    var put := PutAll(cache, next);
    r := DeleteStale(put, warmed, next);
  }

  method NextKeys(l: seq<ForbidDst>) returns (next4: set<Key4>, next6: set<Key6>)
    ensures next4 == Image4(l) && next6 == Image6(l)
  {
    next4, next6 := {}, {};
    for i := 0 to |l|
      invariant next4 == Image4(l[..i]) && next6 == Image6(l[..i])
    {
      assert l[..i + 1][..i] == l[..i];
      var d := l[i];
      if d.ip.None? {
        continue;
      }
      var v4 := To4(d.ip.value);
      if v4.Some? {
        next4 := next4 + {(IpToBE(v4.value), Htons(d.port))};
      }
      next6 := next6 + {(Ip6ToBE(d.ip.value), Htons(d.port))};
    }
    assert l[..|l|] == l;
  }

  /** The agent beside the floor whose caches it warms. */
  class Agent {
    const floor: KernelFloor
    var warmed4: set<Key4>
    var warmed6: set<Key6>

    constructor (floor: KernelFloor)
      ensures this.floor == floor && warmed4 == {} && warmed6 == {}
    {
      this.floor, warmed4, warmed6 := floor, {}, {};
    }

    function View(): AgentState
      reads this, floor
    {
      AgentState(floor.verdicts4, floor.verdicts6, warmed4, warmed6)
    }

    method Warm(fetched: Option<seq<ForbidDst>>)
      modifies this, floor`verdicts4, floor`verdicts6
      ensures View() == TickState(old(View()), fetched)
    {
      if fetched.None? {
        return;
      }
      var next4, next6 := NextKeys(fetched.value);
      var new4 := ReconcileCache(floor.verdicts4, warmed4, next4);
      var new6 := ReconcileCache(floor.verdicts6, warmed6, next6);
      floor.verdicts4, floor.verdicts6 := new4, new6;
      warmed4, warmed6 := next4, next6;
    }
  }

  // ----- one cache over time ------------------------------------------------------------

  /** The image fetched at each tick, None where the fetch failed. */
  type History<!K> = seq<Option<set<K>>>

  datatype Cache<K> = Cache(entries: map<K, byte>, warmed: set<K>)

  /** A cache after one successful tick. */
  function TickCache<K>(c: Cache<K>, next: set<K>): Cache<K> { Cache(Reconciled(c.entries, c.warmed, next), next) }

  function Evolve<K>(c: Cache<K>, h: History<K>): Cache<K> {
    if h == [] then c
    else
      var prior := Evolve(c, h[..|h| - 1]);
      match h[|h| - 1]
      case None => prior
      case Some(next) => TickCache(prior, next)
  }

  /** The last successfully fetched image; empty before the first success. */
  function Current<K>(h: History<K>): set<K> {
    if h == [] then {}
    else
      match h[|h| - 1]
      case Some(s) => s
      case None => Current(h[..|h| - 1])
  }

  ghost predicate EverFetched<K>(h: History<K>, k: K) {
    exists i :: 0 <= i < |h| && h[i].Some? && k in h[i].value
  }

  /** The agent has installed exactly the current image: those keys forbid, keys it once
      installed are gone, and keys never fetched are as they were before it ran. */
  ghost predicate ReconciledAt<K>(before: map<K, byte>, now: map<K, byte>, h: History<K>, k: K) {
    if k in Current(h) then k in now && now[k] == TEX_FORBID
    else if EverFetched(h, k) then k !in now
    else (k in now <==> k in before) && (k in now ==> now[k] == before[k])
  }

  lemma FetchedGrows<K>(h: History<K>, f: Option<set<K>>, k: K)
    ensures EverFetched(h + [f], k) <==> EverFetched(h, k) || (f.Some? && k in f.value)
  {
    if EverFetched(h, k) {
      var i :| 0 <= i < |h| && h[i].Some? && k in h[i].value;
      assert (h + [f])[i] == h[i];
    }
    assert (h + [f])[|h|] == f;
  }

  lemma {:induction false} CurrentWasFetched<K>(h: History<K>, k: K)
    requires k in Current(h)
    ensures EverFetched(h, k)
  {
    var most, last := h[..|h| - 1], h[|h| - 1];
    assert h == most + [last];
    FetchedGrows(most, last, k);
    if last.None? {
      CurrentWasFetched(most, k);
    }
  }

  /** After any sequence of successful and failed ticks, at every key. */
  lemma {:induction false} CacheReconciled<K>(before: map<K, byte>, h: History<K>, k: K)
    ensures Evolve(Cache(before, {}), h).warmed == Current(h)
    ensures ReconciledAt(before, Evolve(Cache(before, {}), h).entries, h, k)
  {
    if h != [] {
      var most, last := h[..|h| - 1], h[|h| - 1];
      assert h == most + [last];
      CacheReconciled(before, most, k);
      FetchedGrows(most, last, k);
      if k in Current(most) {
        CurrentWasFetched(most, k);
      }
    }
  }

  // ----- agent and hooks together -------------------------------------------------------

  /** The running system: kernel maps, and the key sets the agent remembers installing. */
  datatype System = System(kernel: Kernel, warmed4: set<Key4>, warmed6: set<Key6>)

  datatype Action = Tick(fetched: Option<seq<ForbidDst>>) | Event(event: Egress.Event)

  function Act(s: System, a: Action): System {
    match a
    case Tick(f) =>
      var r := TickState(AgentState(s.kernel.verdicts4, s.kernel.verdicts6, s.warmed4, s.warmed6), f);
      System(s.kernel.(verdicts4 := r.v4, verdicts6 := r.v6), r.warmed4, r.warmed6)
    case Event(e) => s.(kernel := Step(s.kernel, e))
  }

  function ActAll(s: System, acts: seq<Action>): System {
    if acts == [] then s else Act(ActAll(s, acts[..|acts| - 1]), acts[|acts| - 1])
  }

  function History4(acts: seq<Action>): History<Key4> {
    if acts == [] then []
    else
      History4(acts[..|acts| - 1]) +
      match acts[|acts| - 1]
      case Event(_) => []
      case Tick(None) => [None]
      case Tick(Some(l)) => [Some(Image4(l))]
  }

  function History6(acts: seq<Action>): History<Key6> {
    if acts == [] then []
    else
      History6(acts[..|acts| - 1]) +
      match acts[|acts| - 1]
      case Event(_) => []
      case Tick(None) => [None]
      case Tick(Some(l)) => [Some(Image6(l))]
  }

  /** Only the agent writes the caches. */
  ghost predicate AgentOwnsCaches(acts: seq<Action>) {
    forall a :: a in acts ==> a.Event? ==> !a.event.Warm?
  }

  lemma HooksKeepCaches(k: Kernel, e: Egress.Event)
    requires !e.Warm?
    ensures Step(k, e).verdicts4 == k.verdicts4 && Step(k, e).verdicts6 == k.verdicts6
  {
  }

  /** The caches of a run are the evolution of its fetch history. */
  ghost predicate Follows(s: System, acts: seq<Action>) {
    var r := ActAll(s, acts);
    && Cache(r.kernel.verdicts4, r.warmed4) == Evolve(Cache(s.kernel.verdicts4, {}), History4(acts))
    && Cache(r.kernel.verdicts6, r.warmed6) == Evolve(Cache(s.kernel.verdicts6, {}), History6(acts))
  }

  lemma EvolvesByEvent(s: System, most: seq<Action>, e: Egress.Event)
    requires Follows(s, most) && !e.Warm?
    ensures Follows(s, most + [Event(e)])
  {
    var acts := most + [Event(e)];
    assert acts[..|acts| - 1] == most;
    HooksKeepCaches(ActAll(s, most).kernel, e);
    assert History4(acts) == History4(most) && History6(acts) == History6(most);
  }

  lemma EvolvesByTick(s: System, most: seq<Action>, f: Option<seq<ForbidDst>>)
    requires Follows(s, most)
    ensures Follows(s, most + [Tick(f)])
  {
    var acts := most + [Tick(f)];
    assert acts[..|acts| - 1] == most;
    assert History4(acts)[..|History4(acts)| - 1] == History4(most);
    assert History6(acts)[..|History6(acts)| - 1] == History6(most);
  }

  lemma {:induction false} SystemEvolves(s: System, acts: seq<Action>)
    requires s.warmed4 == {} && s.warmed6 == {} && AgentOwnsCaches(acts)
    ensures Follows(s, acts)
  {
    if acts != [] {
      var most, last := acts[..|acts| - 1], acts[|acts| - 1];
      assert last in acts && forall a :: a in most ==> a in acts;
      SystemEvolves(s, most);
      assert acts == most + [last];
      match last {
        case Event(e) => EvolvesByEvent(s, most, e);
        case Tick(f) => EvolvesByTick(s, most, f);
      }
    }
  }

  /** The set served by the last successful fetch of a run. */
  function Served(acts: seq<Action>): seq<ForbidDst> {
    if acts == [] then []
    else
      match acts[|acts| - 1]
      case Tick(Some(l)) => l
      case Tick(None) => Served(acts[..|acts| - 1])
      case Event(_) => Served(acts[..|acts| - 1])
  }

  lemma CurrentPush<K>(h: History<K>, f: Option<set<K>>)
    ensures Current(h + [f]) == match f case Some(s) => s case None => Current(h)
  {
    assert (h + [f])[..|h|] == h;
  }

  lemma {:induction false} ServedIsCurrent(acts: seq<Action>)
    ensures Current(History4(acts)) == Image4(Served(acts))
    ensures Current(History6(acts)) == Image6(Served(acts))
  {
    if acts != [] {
      var most := acts[..|acts| - 1];
      ServedIsCurrent(most);
      match acts[|acts| - 1] {
        case Event(_) =>
          assert History4(acts) == History4(most) && History6(acts) == History6(most);
        case Tick(None) =>
          CurrentPush(History4(most), None);
          CurrentPush(History6(most), None);
        case Tick(Some(l)) =>
          CurrentPush(History4(most), Some(Image4(l)));
          CurrentPush(History6(most), Some(Image6(l)));
      }
    }
  }

  lemma {:induction false} ListedIsInImage(l: seq<ForbidDst>, d: ForbidDst)
    requires d in l
    ensures Keys4(d) <= Image4(l) && Keys6(d) <= Image6(l)
  {
    var most := l[..|l| - 1];
    assert l == most + [l[|l| - 1]];
    if d != l[|l| - 1] {
      ListedIsInImage(most, d);
    }
  }

  /** Whatever the interleaving of ticks and traffic, a destination in the currently served
      set is refused: an IPv4 one by the IPv4 hooks and, in mapped form, by the IPv6 hooks; an
      IPv6 one by the IPv6 hooks. Only the proxy's own address escapes the cache. */
  lemma ListedIsRefused(s: System, acts: seq<Action>, d: ForbidDst, c: Call)
    requires s.warmed4 == {} && s.warmed6 == {} && AgentOwnsCaches(acts)
    requires d in Served(acts) && d.ip.Some? && Governed(c)
    requires c.hook.V6() ==> c.dst == Endpoint6(d.ip.value, d.port).Wire()
    requires !c.hook.V6() ==> To4(d.ip.value).Some? && c.dst == Endpoint4(To4(d.ip.value).value, d.port).Wire()
    requires ActAll(s, acts).kernel.cfg.Some? ==> !IsProxy(ActAll(s, acts).kernel.cfg.value, c.hook, c.dst)
    ensures !Mediate(ActAll(s, acts).kernel, c).allow
  {
    SystemEvolves(s, acts);
    ServedIsCurrent(acts);
    ListedIsInImage(Served(acts), d);
    if c.hook.V6() {
      var k := (Ip6ToBE(d.ip.value), Htons(d.port));
      assert k in Keys6(d);
      CacheReconciled(s.kernel.verdicts6, History6(acts), k);
    } else {
      var k := (IpToBE(To4(d.ip.value).value), Htons(d.port));
      assert k in Keys4(d);
      CacheReconciled(s.kernel.verdicts4, History4(acts), k);
    }
  }

  /** The destination of a call, in the form the hook's family sees it. */
  ghost predicate Names(d: ForbidDst, c: Call) {
    && d.ip.Some? && Governed(c)
    && if c.hook.V6() then c.dst == Endpoint6(d.ip.value, d.port).Wire()
       else To4(d.ip.value).Some? && c.dst == Endpoint4(To4(d.ip.value).value, d.port).Wire()
  }

  lemma {:induction false} ImageMembers(l: seq<ForbidDst>, k4: Key4, k6: Key6)
    ensures k4 in Image4(l) <==> exists d :: d in l && k4 in Keys4(d)
    ensures k6 in Image6(l) <==> exists d :: d in l && k6 in Keys6(d)
  {
    if l != [] {
      var most, last := l[..|l| - 1], l[|l| - 1];
      ImageMembers(most, k4, k6);
      assert l == most + [last];
      assert last in l && forall d :: d in most ==> d in l;
    }
  }

  lemma KeysName(d: ForbidDst, c: Call)
    requires Governed(c)
    ensures c.hook.V6() ==> ((c.dst.ip, c.dst.port) in Keys6(d) <==> Names(d, c))
    ensures !c.hook.V6() ==> ((c.dst.ip.w0, c.dst.port) in Keys4(d) <==> Names(d, c))
  {
  }

  /** The caches refuse nothing else: from empty caches, over every interleaving of ticks and
      traffic, a destination is forbidden exactly when an entry of the currently served set names
      it. */
  lemma ForbiddenIffListed(s: System, acts: seq<Action>, c: Call)
    requires s.warmed4 == {} && s.warmed6 == {} && s.kernel.verdicts4 == map[] && s.kernel.verdicts6 == map[]
    requires AgentOwnsCaches(acts) && Governed(c)
    ensures Forbidden(ActAll(s, acts).kernel, c.hook, c.dst) <==> exists d :: d in Served(acts) && Names(d, c)
  {
    var l := Served(acts);
    var k4, k6 := (c.dst.ip.w0, c.dst.port), (c.dst.ip, c.dst.port);
    SystemEvolves(s, acts);
    ServedIsCurrent(acts);
    CacheReconciled(s.kernel.verdicts4, History4(acts), k4);
    CacheReconciled(s.kernel.verdicts6, History6(acts), k6);
    ImageMembers(l, k4, k6);
    forall d | d in l
      ensures c.hook.V6() ==> (k6 in Keys6(d) <==> Names(d, c))
      ensures !c.hook.V6() ==> (k4 in Keys4(d) <==> Names(d, c))
    {
      KeysName(d, c);
    }
  }
}
