/**
 The kernel egress floor: connect4/6, sendmsg4/6 and sockops over five shared maps, and the
 agent's lookup of a flow's original destination.

 Mediate states once what all four address hooks do, in terms of the hook's family and
 kind; the class KernelFloor holds the four programs as they are written, each proved to be
 that mediation. Ports are 16-bit and the maps never evict.
 */
module Egress {
  import opened Wrappers
  import opened Wire

  const AF_INET := 2
  const AF_INET6 := 10
  const SOCK_DGRAM := 2
  const TEX_FORBID: byte := 2
  const ACTIVE_ESTABLISHED := 4

  datatype Config = Config(proxyIp4: u32, proxyPort: u16, udpProxyPort: u16, proxyIp6: Words, allowDns: bool)

  /** An address as a hook of either family sees it. */
  datatype Dest = Dest(ip: Words, port: u16)

  datatype OrigDst = OrigDst(ip: Words, port: u16, family: int)

  datatype SrcKey = SrcKey(family: int, ip: Words, port: u16)

  /** The socket behind a call; its source port is in host order, 0 while unbound. */
  datatype Sock = Sock(srcIp4: u32, srcIp6: Words, srcPort: u16)

  datatype Kernel = Kernel(
    cfg: Option<Config>, verdicts4: map<(u32, u16), byte>, verdicts6: map<(Words, u16), byte>,
    origDst: map<int, OrigDst>, srcToOrig: map<SrcKey, OrigDst>)

  datatype Hook = CONNECT4 | CONNECT6 | SENDMSG4 | SENDMSG6 {
    predicate V6() { CONNECT6? || SENDMSG6? }
    predicate Sendmsg() { SENDMSG4? || SENDMSG6? }
    function Family(): int { if V6() then AF_INET6 else AF_INET }
    function Tag(): int { if V6() then 6 else 4 }
  }

  datatype Call = Call(hook: Hook, family: int, dst: Dest, sockType: int, sk: Option<Sock>, cookie: int) {
    predicate Udp() { hook.Sendmsg() || sockType == SOCK_DGRAM }
  }

  datatype Outcome = Outcome(allow: bool, dst: Dest, kernel: Kernel)

  function V4(w: u32): Words { Words(w, 0, 0, 0) }

  function ProxyIp(cfg: Config, h: Hook): Words { if h.V6() then cfg.proxyIp6 else V4(cfg.proxyIp4) }

  /** The proxy itself, at either of its two ports, in this hook's family. */
  predicate IsProxy(cfg: Config, h: Hook, d: Dest) {
    d.ip == ProxyIp(cfg, h) && (d.port == cfg.proxyPort || d.port == cfg.udpProxyPort)
  }

  predicate Forbidden(k: Kernel, h: Hook, d: Dest) {
    if h.V6() then (d.ip, d.port) in k.verdicts6 && k.verdicts6[(d.ip, d.port)] == TEX_FORBID
    else (d.ip.w0, d.port) in k.verdicts4 && k.verdicts4[(d.ip.w0, d.port)] == TEX_FORBID
  }

  /** A call the hook governs: its own family, and for IPv4 an address in the first word. */
  predicate Governed(c: Call) {
    c.family == c.hook.Family() && (!c.hook.V6() ==> c.dst.ip == V4(c.dst.ip.w0))
  }

  predicate DnsExempt(cfg: Config, c: Call) {
    c.hook.Sendmsg() && cfg.allowDns && c.dst.port == Htons(53)
  }

  function SourceKey(h: Hook, sk: Sock): SrcKey {
    SrcKey(h.Tag(), if h.V6() then sk.srcIp6 else V4(sk.srcIp4), Htons(sk.srcPort))
  }

  function Stash(c: Call): OrigDst { OrigDst(c.dst.ip, c.dst.port, c.hook.Tag()) }

  /** The port a redirect goes to. Unconnected IPv6 datagrams go to the TCP port, the other
      datagrams to the UDP port. */
  function RedirectPort(cfg: Config, c: Call): u16 {
    if c.Udp() && c.hook != SENDMSG6 then cfg.udpProxyPort else cfg.proxyPort
  }

  function StashInto(k: Kernel, c: Call): Kernel {
    if !c.Udp() then k.(origDst := k.origDst[c.cookie := Stash(c)])
    else if c.sk.Some? && c.sk.value.srcPort != 0 then
      k.(srcToOrig := k.srcToOrig[SourceKey(c.hook, c.sk.value) := Stash(c)])
    else k
  }

  /** Whether the call is rewritten to the proxy, its destination stashed. */
  predicate Redirected(k: Kernel, c: Call) {
    && Governed(c)
    && k.cfg.Some?
    && !IsProxy(k.cfg.value, c.hook, c.dst)
    && !Forbidden(k, c.hook, c.dst)
    && !DnsExempt(k.cfg.value, c)
    && (c.Udp() ==> k.cfg.value.udpProxyPort != 0)
  }

  /** What every address hook does. */
  function Mediate(k: Kernel, c: Call): Outcome {
    if c.family != c.hook.Family() then Outcome(true, c.dst, k)
    else if k.cfg.None? then Outcome(false, c.dst, k)
    else
      var cfg := k.cfg.value;
      if IsProxy(cfg, c.hook, c.dst) then Outcome(true, c.dst, k)
      else if Forbidden(k, c.hook, c.dst) then Outcome(false, c.dst, k)
      else if DnsExempt(cfg, c) then Outcome(true, c.dst, k)
      else if c.Udp() && cfg.udpProxyPort == 0 then Outcome(false, c.dst, k)
      else Outcome(true, Dest(ProxyIp(cfg, c.hook), RedirectPort(cfg, c)), StashInto(k, c))
  }

  datatype SockOps = SockOps(op: int, cookie: int, family: int, localIp4: u32, localIp6: Words, localPort: u16) {
    function Key(): SrcKey {
      if family == AF_INET6 then SrcKey(6, localIp6, Htons(localPort))
      else SrcKey(4, V4(localIp4), Htons(localPort))
    }

    predicate Established() { op == ACTIVE_ESTABLISHED }
  }

  /** Re-key a pending destination under the source tuple, consuming the cookie entry. */
  function Rekey(k: Kernel, s: SockOps): Kernel {
    if s.Established() && s.cookie in k.origDst then
      k.(srcToOrig := k.srcToOrig[s.Key() := k.origDst[s.cookie]], origDst := k.origDst - {s.cookie})
    else k
  }

  // ----- the five programs --------------------------------------------------------------

  /** The call context; connect and sendmsg hooks rewrite its address in place. */
  class SockAddr {
    const family: int
    const sockType: int
    const sk: Option<Sock>
    const cookie: int
    var userIp4: u32
    var userIp6: Words
    var userPort: u16

    constructor (family: int, sockType: int, sk: Option<Sock>, cookie: int, ip4: u32, ip6: Words, port: u16)
      ensures this.family == family && this.sockType == sockType && this.sk == sk && this.cookie == cookie
      ensures userIp4 == ip4 && userIp6 == ip6 && userPort == port
    {
      this.family, this.sockType, this.sk, this.cookie := family, sockType, sk, cookie;
      userIp4, userIp6, userPort := ip4, ip6, port;
    }

    function AsCall(h: Hook): Call
      reads this
    {
      Call(h, family, Dest(if h.V6() then userIp6 else V4(userIp4), userPort), sockType, sk, cookie)
    }
  }

  class KernelFloor {
    var cfg: Option<Config>
    var verdicts4: map<(u32, u16), byte>
    var verdicts6: map<(Words, u16), byte>
    var origDst: map<int, OrigDst>
    var srcToOrig: map<SrcKey, OrigDst>

    function View(): Kernel
      reads this
    {
      Kernel(cfg, verdicts4, verdicts6, origDst, srcToOrig)
    }

    constructor ()
      ensures View() == Kernel(None, map[], map[], map[], map[])
    {
      cfg, verdicts4, verdicts6, origDst, srcToOrig := None, map[], map[], map[], map[];
    }

    method Connect4(ctx: SockAddr) returns (allow: bool)
      modifies this`origDst, this`srcToOrig, ctx`userIp4, ctx`userPort
      ensures Outcome(allow, ctx.AsCall(CONNECT4).dst, View()) == Mediate(old(View()), old(ctx.AsCall(CONNECT4)))
    {
      if ctx.family != AF_INET {
        return true;
      }
      if cfg == None {
        return false;
      }
      var c := cfg.value;
      var ip, port := ctx.userIp4, ctx.userPort;
      if ip == c.proxyIp4 && (port == c.proxyPort || port == c.udpProxyPort) {
        return true;
      }
      if (ip, port) in verdicts4 && verdicts4[(ip, port)] == TEX_FORBID {
        return false;
      }
      if ctx.sockType == SOCK_DGRAM {
        if c.udpProxyPort == 0 {
          return false;
        }
        if ctx.sk.Some? && ctx.sk.value.srcPort != 0 {
          var skey := SrcKey(4, V4(ctx.sk.value.srcIp4), Htons(ctx.sk.value.srcPort));
          srcToOrig := srcToOrig[skey := OrigDst(V4(ip), port, 4)];
        }
        ctx.userIp4, ctx.userPort := c.proxyIp4, c.udpProxyPort;
        return true;
      }
      origDst := origDst[ctx.cookie := OrigDst(V4(ip), port, 4)];
      ctx.userIp4, ctx.userPort := c.proxyIp4, c.proxyPort;
      return true;
    }

    method Connect6(ctx: SockAddr) returns (allow: bool)
      modifies this`origDst, this`srcToOrig, ctx`userIp6, ctx`userPort
      ensures Outcome(allow, ctx.AsCall(CONNECT6).dst, View()) == Mediate(old(View()), old(ctx.AsCall(CONNECT6)))
    {
      if ctx.family != AF_INET6 {
        return true;
      }
      if cfg == None {
        return false;
      }
      var c := cfg.value;
      var ip, port := ctx.userIp6, ctx.userPort;
      if ip == c.proxyIp6 && (port == c.proxyPort || port == c.udpProxyPort) {
        return true;
      }
      if (ip, port) in verdicts6 && verdicts6[(ip, port)] == TEX_FORBID {
        return false;
      }
      if ctx.sockType == SOCK_DGRAM {
        if c.udpProxyPort == 0 {
          return false;
        }
        if ctx.sk.Some? && ctx.sk.value.srcPort != 0 {
          var skey := SrcKey(6, ctx.sk.value.srcIp6, Htons(ctx.sk.value.srcPort));
          srcToOrig := srcToOrig[skey := OrigDst(ip, port, 6)];
        }
        ctx.userIp6, ctx.userPort := c.proxyIp6, c.udpProxyPort;
        return true;
      }
      origDst := origDst[ctx.cookie := OrigDst(ip, port, 6)];
      ctx.userIp6, ctx.userPort := c.proxyIp6, c.proxyPort;
      return true;
    }

    method Sendmsg4(ctx: SockAddr) returns (allow: bool)
      modifies this`srcToOrig, ctx`userIp4, ctx`userPort
      ensures Outcome(allow, ctx.AsCall(SENDMSG4).dst, View()) == Mediate(old(View()), old(ctx.AsCall(SENDMSG4)))
    {
      if ctx.family != AF_INET {
        return true;
      }
      if cfg == None {
        return false;
      }
      var c := cfg.value;
      var ip, port := ctx.userIp4, ctx.userPort;
      if ip == c.proxyIp4 && (port == c.udpProxyPort || port == c.proxyPort) {
        return true;
      }
      if (ip, port) in verdicts4 && verdicts4[(ip, port)] == TEX_FORBID {
        return false;
      }
      if c.allowDns && port == Htons(53) {
        return true;
      }
      if c.udpProxyPort == 0 {
        return false;
      }
      if ctx.sk.Some? && ctx.sk.value.srcPort != 0 {
        var skey := SrcKey(4, V4(ctx.sk.value.srcIp4), Htons(ctx.sk.value.srcPort));
        srcToOrig := srcToOrig[skey := OrigDst(V4(ip), port, 4)];
      }
      ctx.userIp4, ctx.userPort := c.proxyIp4, c.udpProxyPort;
      return true;
    }

    method Sendmsg6(ctx: SockAddr) returns (allow: bool)
      modifies this`srcToOrig, ctx`userIp6, ctx`userPort
      ensures Outcome(allow, ctx.AsCall(SENDMSG6).dst, View()) == Mediate(old(View()), old(ctx.AsCall(SENDMSG6)))
    {
      if ctx.family != AF_INET6 {
        return true;
      }
      if cfg == None {
        return false;
      }
      var c := cfg.value;
      var ip, port := ctx.userIp6, ctx.userPort;
      if ip == c.proxyIp6 && (port == c.udpProxyPort || port == c.proxyPort) {
        return true;
      }
      if (ip, port) in verdicts6 && verdicts6[(ip, port)] == TEX_FORBID {
        return false;
      }
      if c.allowDns && port == Htons(53) {
        return true;
      }
      if c.udpProxyPort == 0 {
        return false;
      }
      if ctx.sk.Some? && ctx.sk.value.srcPort != 0 {
        var skey := SrcKey(6, ctx.sk.value.srcIp6, Htons(ctx.sk.value.srcPort));
        srcToOrig := srcToOrig[skey := OrigDst(ip, port, 6)];
      }
      ctx.userIp6, ctx.userPort := c.proxyIp6, c.proxyPort;
      return true;
    }

    method SockOpsCallback(s: SockOps)
      modifies this`origDst, this`srcToOrig
      ensures View() == Rekey(old(View()), s)
    {
      if s.op != ACTIVE_ESTABLISHED {
        return;
      }
      if s.cookie !in origDst {
        return;
      }
      var val := origDst[s.cookie];
      var key;
      if s.family == AF_INET6 {
        key := SrcKey(6, s.localIp6, Htons(s.localPort));
      } else {
        key := SrcKey(4, V4(s.localIp4), Htons(s.localPort));
      }
      srcToOrig := srcToOrig[key := val];
      origDst := origDst - {s.cookie};
    }
  }

  // ----- complete mediation -------------------------------------------------------------

  /** What mediation promises of one governed call, whatever the state it meets, in the terms of
      the configuration, the caches and the call. */
  ghost predicate Mediated(k: Kernel, c: Call) {
    var o := Mediate(k, c);
    match k.cfg
    case None => !o.allow && o.dst == c.dst && o.kernel == k
    case Some(cfg) =>
      var six := c.hook == CONNECT6 || c.hook == SENDMSG6;
      var datagram := c.hook == SENDMSG4 || c.hook == SENDMSG6;
      var udp := datagram || c.sockType == 2;
      var proxy := if six then cfg.proxyIp6 else Words(cfg.proxyIp4, 0, 0, 0);
      var own := c.dst.ip == proxy && (c.dst.port == cfg.proxyPort || c.dst.port == cfg.udpProxyPort);
      var dns := datagram && cfg.allowDns && Htons(c.dst.port) == 53;
      // refused exactly when a cache forbids it, or when no proxy takes its datagrams
      && (!o.allow <==> !own && (CacheForbids(k, six, c.dst) || (udp && cfg.udpProxyPort == 0 && !dns)))
      // let through: untouched if it is the proxy or exempt, else at the proxy's own address
      && (o.allow && (own || dns) ==> o.dst == c.dst)
      && (o.allow && !own && !dns ==> o.dst.ip == proxy)
      // at the TCP port, or at the UDP port
      && (o.allow && !own && !dns ==>
            && (o.dst.port == cfg.proxyPort <==> !udp || c.hook == SENDMSG6 || cfg.proxyPort == cfg.udpProxyPort)
            && (o.dst.port == cfg.udpProxyPort <==> (udp && c.hook != SENDMSG6) || cfg.proxyPort == cfg.udpProxyPort))
      // only a redirect leaves a trace
      && (!o.allow || own || dns ==> o.kernel == k)
      && (!o.allow ==> o.dst == c.dst)
  }

  /** The verdict cache of the call's family holds its destination as forbidden. */
  ghost predicate CacheForbids(k: Kernel, six: bool, d: Dest) {
    if six then (d.ip, d.port) in k.verdicts6 && k.verdicts6[(d.ip, d.port)] == 2
    else (d.ip.w0, d.port) in k.verdicts4 && k.verdicts4[(d.ip.w0, d.port)] == 2
  }

  /** Complete mediation: a governed call that is let through ends at the proxy, a TCP connect at
      its TCP port and a datagram at the port its hook uses, or is an exempt, untouched DNS
      datagram; without a configuration, or on a forbidden destination that is not the proxy, it
      is refused; and a refusal changes nothing. */
  lemma CompleteMediation(k: Kernel, c: Call)
    requires Governed(c)
    ensures Mediated(k, c)
    ensures Mediate(k, c).kernel != k ==> Redirected(k, c)
    ensures Redirected(k, c) ==> Mediate(k, c).allow && Mediate(k, c).kernel == StashInto(k, c)
  {
    HtonsInvolution(c.dst.port);
    HtonsInvolution(53);
  }

  /** A redirected TCP connect goes to the proxy's TCP port, whatever the UDP port is. */
  lemma TcpPort(k: Kernel, c: Call)
    requires Redirected(k, c) && !c.Udp()
    ensures Mediate(k, c).dst == Dest(if c.hook == CONNECT6 then k.cfg.value.proxyIp6 else Words(k.cfg.value.proxyIp4, 0, 0, 0), k.cfg.value.proxyPort)
  {
  }

  /** The families differ on datagrams: a redirected one reaches the UDP proxy port exactly when
      it did not come through the IPv6 sendmsg hook, or the two ports are one. */
  lemma DatagramPort(k: Kernel, c: Call)
    requires Redirected(k, c) && c.Udp()
    ensures Mediate(k, c).dst.port == k.cfg.value.udpProxyPort
       <==> c.hook != SENDMSG6 || k.cfg.value.proxyPort == k.cfg.value.udpProxyPort
  {
  }

  /** Which happens: any IPv6 datagram redirected under two different ports goes to the other. */
  lemma Sendmsg6MissesUdpPort(cfg: Config, d: Dest, cookie: int)
    requires cfg.udpProxyPort != 0 && cfg.proxyPort != cfg.udpProxyPort && !cfg.allowDns && !IsProxy(cfg, SENDMSG6, d)
    ensures var k := Kernel(Some(cfg), map[], map[], map[], map[]);
            var c := Call(SENDMSG6, AF_INET6, d, SOCK_DGRAM, None, cookie);
            Redirected(k, c) && Mediate(k, c).dst.port == cfg.proxyPort != cfg.udpProxyPort
  {
  }

  /** A hook run on its own output lets it through again and changes nothing more. */
  lemma HooksIdempotent(k: Kernel, c: Call)
    requires Mediate(k, c).allow
    ensures var o := Mediate(k, c); Mediate(o.kernel, c.(dst := o.dst)) == o
  {
  }

  // ----- runs ---------------------------------------------------------------------------

  datatype Event =
    | Syscall(call: Call)
    | Sockops(ops: SockOps)
    | Configure(cfg: Config)
    | Warm(v4: map<(u32, u16), byte>, v6: map<(Words, u16), byte>)

  function Step(k: Kernel, e: Event): Kernel {
    match e
    case Syscall(c) => Mediate(k, c).kernel
    case Sockops(s) => Rekey(k, s)
    case Configure(cfg) => k.(cfg := Some(cfg))
    case Warm(v4, v6) => k.(verdicts4 := v4, verdicts6 := v6)
  }

  function Run(k: Kernel, es: seq<Event>): Kernel
    decreases |es|
  {
    if es == [] then k else Run(Step(k, es[0]), es[1..])
  }

  lemma {:induction false} RunConcat(k: Kernel, a: seq<Event>, b: seq<Event>)
    ensures Run(k, a + b) == Run(Run(k, a), b)
    decreases |a|
  {
    if a == [] {
      assert a + b == b;
    } else {
      assert (a + b)[1..] == a[1..] + b;
      RunConcat(Step(k, a[0]), a[1..], b);
    }
  }

  /** All of that at every step of every run. */
  lemma {:induction false} RunMediated(k: Kernel, es: seq<Event>, i: nat)
    requires i < |es| && es[i].Syscall?
    ensures Governed(es[i].call) ==> Mediated(Run(k, es[..i]), es[i].call)
  {
    if Governed(es[i].call) {
      CompleteMediation(Run(k, es[..i]), es[i].call);
    }
  }

  /** A call of the hook's own family names its address as that family does. */
  predicate WellFormed(e: Event) {
    e.Syscall? && e.call.family == e.call.hook.Family() ==> Governed(e.call)
  }

  /** No stash holds the proxy of its own family as an original destination. */
  ghost predicate NoProxyStash(k: Kernel, cfg: Config) {
    && (forall c :: c in k.origDst ==> !StashesProxy(cfg, k.origDst[c]))
    && (forall s :: s in k.srcToOrig ==> !StashesProxy(cfg, k.srcToOrig[s]))
  }

  predicate StashesProxy(cfg: Config, od: OrigDst) {
    IsProxy(cfg, if od.family == 6 then CONNECT6 else CONNECT4, Dest(od.ip, od.port))
  }

  ghost predicate KeepsConfig(es: seq<Event>) {
    forall e :: e in es ==> !e.Configure?
  }

  lemma NoProxyStashStep(k: Kernel, cfg: Config, e: Event)
    requires k.cfg == Some(cfg) && NoProxyStash(k, cfg) && !e.Configure?
    requires WellFormed(e)
    ensures Step(k, e).cfg == Some(cfg) && NoProxyStash(Step(k, e), cfg)
  {
  }

  /** Under a fixed configuration no run ever records the proxy as an original destination. */
  lemma {:induction false} ProxyNeverStashed(k: Kernel, cfg: Config, es: seq<Event>)
    requires k.cfg == Some(cfg) && NoProxyStash(k, cfg) && KeepsConfig(es)
    requires forall e :: e in es ==> WellFormed(e)
    ensures NoProxyStash(Run(k, es), cfg)
    decreases |es|
  {
    if es != [] {
      NoProxyStashStep(k, cfg, es[0]);
      ProxyNeverStashed(Step(k, es[0]), cfg, es[1..]);
    }
  }

  // ----- original-destination recovery --------------------------------------------------

  datatype Request = Request(srcIp: Option<IPv6>, srcPort: int, family: int)

  datatype Response = NotFound | Found(ip: IPv6, port: int)

  /** The agent's lookup: parsed source address and host-order port in, address and
      host-order port out. */
  function LookupOrigDst(m: map<SrcKey, OrigDst>, req: Request): Response {
    if req.srcPort < 1 || req.srcPort > 65535 || req.srcIp.None? then NotFound
    else
      var ip, port := req.srcIp.value, Htons(req.srcPort);
      if req.family == 6 then Answer(m, SrcKey(6, Ip6ToBE(ip), port))
      else
        match To4(ip)
        case None => NotFound
        case Some(v4) => Answer(m, SrcKey(4, V4(IpToBE(v4)), port))
  }

  function Answer(m: map<SrcKey, OrigDst>, key: SrcKey): Response {
    if key !in m then NotFound else ReadBack(m[key])
  }

  /** A stash as the agent prints it. */
  function ReadBack(od: OrigDst): Response {
    if od.family == 6 then Found(Words6ToIP(od.ip), Htons(od.port))
    else Found(V4Mapped(UnpackWord(od.ip.w0)), Htons(od.port))
  }

  /** A destination as the application names it: an address and a host-order port. */
  datatype Endpoint = Endpoint4(ip: IPv4, port: u16) | Endpoint6(ip6: IPv6, port: u16) {
    function Wire(): Dest {
      match this
      case Endpoint4(ip, port) => Dest(V4(IpToBE(ip)), Htons(port))
      case Endpoint6(ip6, port) => Dest(Ip6ToBE(ip6), Htons(port))
    }

    function Printed(): Response {
      match this
      case Endpoint4(ip, port) => Found(V4Mapped(ip), port)
      case Endpoint6(ip6, port) => Found(ip6, port)
    }

    predicate Fits(h: Hook) { Endpoint6? == h.V6() }
  }

  /** The question the proxy asks about the peer of an accepted connection. */
  function AskAbout(s: SockOps): Request {
    if s.family == AF_INET6 then Request(Some(Words6ToIP(s.localIp6)), s.localPort, 6)
    else Request(Some(V4Mapped(UnpackWord(s.localIp4))), s.localPort, 4)
  }

  predicate RedirectsTcp(k: Kernel, c: Call) { Redirected(k, c) && !c.Udp() }

  /** The event re-stashes or consumes the pending entry of this cookie. */
  predicate TouchesCookie(k: Kernel, e: Event, cookie: int) {
    match e
    case Syscall(c) => RedirectsTcp(k, c) && c.cookie == cookie
    case Sockops(s) => s.Established() && s.cookie == cookie
    case Configure(_) => false
    case Warm(_, _) => false
  }

  /** The event writes this source tuple's entry. */
  predicate TouchesKey(k: Kernel, e: Event, key: SrcKey) {
    match e
    case Syscall(c) =>
      && Redirected(k, c) && c.Udp() && c.sk.Some? && c.sk.value.srcPort != 0
      && SourceKey(c.hook, c.sk.value) == key
    case Sockops(s) => s.Established() && s.cookie in k.origDst && s.Key() == key
    case Configure(_) => false
    case Warm(_, _) => false
  }

  ghost predicate CookieQuiet(k: Kernel, es: seq<Event>, cookie: int)
    decreases |es|
  {
    es == [] || (!TouchesCookie(k, es[0], cookie) && WellFormed(es[0]) && CookieQuiet(Step(k, es[0]), es[1..], cookie))
  }

  ghost predicate KeyQuiet(k: Kernel, es: seq<Event>, key: SrcKey)
    decreases |es|
  {
    es == [] || (!TouchesKey(k, es[0], key) && WellFormed(es[0]) && KeyQuiet(Step(k, es[0]), es[1..], key))
  }

  lemma {:induction false} PendingPersists(k: Kernel, es: seq<Event>, cookie: int)
    requires cookie in k.origDst && CookieQuiet(k, es, cookie)
    ensures cookie in Run(k, es).origDst && Run(k, es).origDst[cookie] == k.origDst[cookie]
    decreases |es|
  {
    if es != [] {
      PendingPersists(Step(k, es[0]), es[1..], cookie);
    }
  }

  lemma {:induction false} StashPersists(k: Kernel, es: seq<Event>, key: SrcKey)
    requires key in k.srcToOrig && KeyQuiet(k, es, key)
    ensures key in Run(k, es).srcToOrig && Run(k, es).srcToOrig[key] == k.srcToOrig[key]
    decreases |es|
  {
    if es != [] {
      StashPersists(Step(k, es[0]), es[1..], key);
    }
  }

  lemma AskingFindsKey(m: map<SrcKey, OrigDst>, s: SockOps)
    requires s.localPort != 0
    ensures LookupOrigDst(m, AskAbout(s)) == Answer(m, s.Key())
  {
    if s.family == AF_INET6 {
      Words6RoundTrip(Words6ToIP(s.localIp6), s.localIp6);
    } else {
      MappedRoundTrip(UnpackWord(s.localIp4));
      PackUnpack(s.localIp4);
    }
  }

  lemma AnswerPrintsEndpoint(m: map<SrcKey, OrigDst>, key: SrcKey, h: Hook, d: Endpoint)
    requires key in m && d.Fits(h) && m[key] == OrigDst(d.Wire().ip, d.Wire().port, h.Tag())
    ensures Answer(m, key) == d.Printed()
  {
    HtonsInvolution(d.port);
    match d {
      case Endpoint4(ip, _) => UnpackPack(ip[0], ip[1], ip[2], ip[3]);
      case Endpoint6(ip6, _) => Words6RoundTrip(ip6, Ip6ToBE(ip6));
    }
  }

  /** In every run: a TCP connect to d is redirected on a cookie; nothing re-stashes or
      consumes that cookie until its established callback at source tuple s; nothing then
      re-keys s. The proxy asking about s is told exactly d, and the cookie entry is gone. */
  lemma OriginalDestinationRecovered(
    k: Kernel, c: Call, d: Endpoint, mid: seq<Event>, s: SockOps, tail: seq<Event>)
    requires RedirectsTcp(k, c) && d.Fits(c.hook) && c.dst == d.Wire()
    requires CookieQuiet(Step(k, Syscall(c)), mid, c.cookie)
    requires s.Established() && s.cookie == c.cookie && s.localPort != 0
    requires KeyQuiet(Run(k, [Syscall(c)] + mid + [Sockops(s)]), tail, s.Key())
    ensures LookupOrigDst(Run(k, [Syscall(c)] + mid + [Sockops(s)] + tail).srcToOrig, AskAbout(s)) == d.Printed()
    ensures s.cookie !in Run(k, [Syscall(c)] + mid + [Sockops(s)]).origDst
  {
    var k1 := Step(k, Syscall(c));
    var k2 := Run(k1, mid);
    var k3 := Step(k2, Sockops(s));
    PendingPersists(k1, mid, c.cookie);
    assert k2.origDst[c.cookie] == Stash(c);
    assert Run(k, [Syscall(c)] + mid) == k2 by {
      RunConcat(k, [Syscall(c)], mid);
      assert Run(k, [Syscall(c)]) == Run(k1, []);
    }
    assert Run(k, [Syscall(c)] + mid + [Sockops(s)]) == k3 by {
      RunConcat(k, [Syscall(c)] + mid, [Sockops(s)]);
      assert Run(k2, [Sockops(s)]) == Run(k3, []);
    }
    RunConcat(k, [Syscall(c)] + mid + [Sockops(s)], tail);
    StashPersists(k3, tail, s.Key());
    var m := Run(k3, tail).srcToOrig;
    AskingFindsKey(m, s);
    AnswerPrintsEndpoint(m, s.Key(), c.hook, d);
  }

  /** The question the proxy asks about the sender of a datagram. */
  function AskSender(h: Hook, sk: Sock): Request {
    if h.V6() then Request(Some(Words6ToIP(sk.srcIp6)), sk.srcPort, 6)
    else Request(Some(V4Mapped(UnpackWord(sk.srcIp4))), sk.srcPort, 4)
  }

  lemma AskingFindsSender(m: map<SrcKey, OrigDst>, h: Hook, sk: Sock)
    requires sk.srcPort != 0
    ensures LookupOrigDst(m, AskSender(h, sk)) == Answer(m, SourceKey(h, sk))
  {
    if h.V6() {
      Words6RoundTrip(Words6ToIP(sk.srcIp6), sk.srcIp6);
    } else {
      MappedRoundTrip(UnpackWord(sk.srcIp4));
      PackUnpack(sk.srcIp4);
    }
  }

  /** In every run: a datagram to d from a bound socket is redirected, and nothing then re-keys its
      source. The proxy asking about the sender is told exactly d. */
  lemma DatagramDestinationRecovered(k: Kernel, c: Call, d: Endpoint, sk: Sock, tail: seq<Event>)
    requires Redirected(k, c) && c.Udp() && c.sk == Some(sk) && sk.srcPort != 0
    requires d.Fits(c.hook) && c.dst == d.Wire()
    requires KeyQuiet(Step(k, Syscall(c)), tail, SourceKey(c.hook, sk))
    ensures LookupOrigDst(Run(k, [Syscall(c)] + tail).srcToOrig, AskSender(c.hook, sk)) == d.Printed()
  {
    var k1, key := Step(k, Syscall(c)), SourceKey(c.hook, sk);
    assert key in k1.srcToOrig && k1.srcToOrig[key] == Stash(c);
    assert ([Syscall(c)] + tail)[1..] == tail;
    StashPersists(k1, tail, key);
    var m := Run(k1, tail).srcToOrig;
    AskingFindsSender(m, c.hook, sk);
    AnswerPrintsEndpoint(m, key, c.hook, d);
  }

  // ----- where the two families meet ----------------------------------------------------

  /** The configuration's proxies, as endpoints printed to the proxy. */
  ghost predicate NamesProxy(cfg: Config, r: Response) {
    && r.Found?
    && (r.port == Htons(cfg.proxyPort) || r.port == Htons(cfg.udpProxyPort))
    && (r.ip == V4Mapped(UnpackWord(cfg.proxyIp4)) || r.ip == Words6ToIP(cfg.proxyIp6))
  }

  /** An address is the proxy of the other family: mapped IPv4 proxy over an IPv6 socket, or
      an IPv4 address whose mapped form is the IPv6 proxy. */
  ghost predicate OtherFamilyProxy(cfg: Config, d: Endpoint) {
    && (Htons(d.port) == cfg.proxyPort || Htons(d.port) == cfg.udpProxyPort)
    && match d
       case Endpoint4(ip, _) => V4Mapped(ip) == Words6ToIP(cfg.proxyIp6)
       case Endpoint6(ip6, _) => ip6 == V4Mapped(UnpackWord(cfg.proxyIp4))
  }

  /** A redirected call's original destination reads back as the proxy exactly when it named
      the proxy through the other family, which the hook's loop guard does not compare. */
  lemma StashReadsAsProxyIff(k: Kernel, c: Call, d: Endpoint)
    requires Redirected(k, c) && d.Fits(c.hook) && c.dst == d.Wire()
    ensures NamesProxy(k.cfg.value, d.Printed()) <==> OtherFamilyProxy(k.cfg.value, d)
  {
    var cfg := k.cfg.value;
    HtonsInvolution(d.port);
    HtonsInvolution(cfg.proxyPort);
    HtonsInvolution(cfg.udpProxyPort);
    match d {
      case Endpoint4(ip, _) =>
        PackUnpack(cfg.proxyIp4);
        MappedRoundTrip(ip);
        MappedRoundTrip(UnpackWord(cfg.proxyIp4));
      case Endpoint6(ip6, _) =>
        Words6RoundTrip(ip6, cfg.proxyIp6);
    }
  }

  /** The endpoint a governed call named. */
  function EndpointOf(c: Call): Endpoint {
    if c.hook.V6() then Endpoint6(Words6ToIP(c.dst.ip), Htons(c.dst.port))
    else Endpoint4(UnpackWord(c.dst.ip.w0), Htons(c.dst.port))
  }

  lemma EndpointOfNames(c: Call)
    requires Governed(c)
    ensures EndpointOf(c).Fits(c.hook) && c.dst == EndpointOf(c).Wire()
    ensures ReadBack(Stash(c)) == EndpointOf(c).Printed()
  {
    HtonsInvolution(c.dst.port);
    if c.hook.V6() {
      Words6RoundTrip(Words6ToIP(c.dst.ip), c.dst.ip);
    } else {
      PackUnpack(c.dst.ip.w0);
    }
  }

  /** The call is redirected and leaves a stash. */
  predicate LeavesStash(k: Kernel, c: Call) {
    Redirected(k, c) && (c.Udp() ==> c.sk.Some? && c.sk.value.srcPort != 0)
  }

  /** The event stashes the proxy under the other family's name. */
  ghost predicate CrossStash(k: Kernel, cfg: Config, e: Event) {
    e.Syscall? && LeavesStash(k, e.call) && OtherFamilyProxy(cfg, EndpointOf(e.call))
  }

  /** No entry of either map reads back as the proxy. */
  ghost predicate NothingReadsAsProxy(k: Kernel, cfg: Config) {
    && (forall c :: c in k.origDst ==> !NamesProxy(cfg, ReadBack(k.origDst[c])))
    && (forall s :: s in k.srcToOrig ==> !NamesProxy(cfg, ReadBack(k.srcToOrig[s])))
  }

  lemma StashInForce(k: Kernel, c: Call, cfg: Config)
    requires NothingReadsAsProxy(k, cfg)
    ensures NothingReadsAsProxy(StashInto(k, c), cfg)
       <==> (c.Udp() && !(c.sk.Some? && c.sk.value.srcPort != 0)) || !NamesProxy(cfg, ReadBack(Stash(c)))
  {
    var k' := StashInto(k, c);
    if !c.Udp() {
      assert k'.origDst[c.cookie] == Stash(c);
    } else if c.sk.Some? && c.sk.value.srcPort != 0 {
      assert k'.srcToOrig[SourceKey(c.hook, c.sk.value)] == Stash(c);
    }
  }

  lemma ReadsAsProxyStep(k: Kernel, cfg: Config, e: Event)
    requires k.cfg == Some(cfg) && NothingReadsAsProxy(k, cfg) && !e.Configure? && WellFormed(e)
    ensures Step(k, e).cfg == Some(cfg)
    ensures NothingReadsAsProxy(Step(k, e), cfg) <==> !CrossStash(k, cfg, e)
  {
    if e.Syscall? && Redirected(k, e.call) {
      EndpointOfNames(e.call);
      StashReadsAsProxyIff(k, e.call, EndpointOf(e.call));
      StashInForce(k, e.call, cfg);
    }
  }

  ghost predicate CleanThroughout(k: Kernel, cfg: Config, es: seq<Event>)
    decreases |es|
  {
    NothingReadsAsProxy(k, cfg) && (es != [] ==> CleanThroughout(Step(k, es[0]), cfg, es[1..]))
  }

  ghost predicate NeverCrosses(k: Kernel, cfg: Config, es: seq<Event>)
    decreases |es|
  {
    es != [] ==> !CrossStash(k, cfg, es[0]) && NeverCrosses(Step(k, es[0]), cfg, es[1..])
  }

  /** Over every run under a fixed configuration: at no moment does an entry of either map read
      back as the proxy, if and only if no redirected call names it through the other family. */
  lemma {:induction false} RunReadsAsProxyIff(k: Kernel, cfg: Config, es: seq<Event>)
    requires k.cfg == Some(cfg) && NothingReadsAsProxy(k, cfg) && KeepsConfig(es)
    requires forall e :: e in es ==> WellFormed(e)
    ensures CleanThroughout(k, cfg, es) <==> NeverCrosses(k, cfg, es)
    ensures NeverCrosses(k, cfg, es) ==> NothingReadsAsProxy(Run(k, es), cfg)
    decreases |es|
  {
    if es != [] {
      ReadsAsProxyStep(k, cfg, es[0]);
      if !CrossStash(k, cfg, es[0]) {
        RunReadsAsProxyIff(Step(k, es[0]), cfg, es[1..]);
      }
    }
  }

  /** A configuration whose IPv6 proxy is not its IPv4 proxy in mapped form. */
  function SplitConfig(ip: IPv4, port: u16, six: Words): Config { Config(IpToBE(ip), Htons(port), 0, six, false) }

  function MappedCall(ip: IPv4, port: u16, cookie: nat): Call {
    Call(CONNECT6, AF_INET6, Endpoint6(V4Mapped(ip), port).Wire(), 1, None, cookie)
  }

  lemma MappedIsRedirected(ip: IPv4, port: u16, six: Words, cookie: nat)
    requires six != Ip6ToBE(V4Mapped(ip))
    ensures Redirected(Kernel(Some(SplitConfig(ip, port, six)), map[], map[], map[], map[]), MappedCall(ip, port, cookie))
  {
  }

  /** It happens: whenever the two proxies differ, the IPv4 proxy in mapped form, over an IPv6
      socket, is redirected to the IPv6 one and stashed as an original destination. */
  lemma MappedProxyIsStashed(ip: IPv4, port: u16, six: Words, cookie: nat)
    requires six != Ip6ToBE(V4Mapped(ip))
    ensures var k := Kernel(Some(SplitConfig(ip, port, six)), map[], map[], map[], map[]);
            var c := MappedCall(ip, port, cookie);
            && Redirected(k, c) && NamesProxy(k.cfg.value, Endpoint6(V4Mapped(ip), port).Printed())
            && cookie in Step(k, Syscall(c)).origDst && Step(k, Syscall(c)).origDst[cookie] == Stash(c)
  {
    var cfg, d := SplitConfig(ip, port, six), Endpoint6(V4Mapped(ip), port);
    var k, c := Kernel(Some(cfg), map[], map[], map[], map[]), MappedCall(ip, port, cookie);
    MappedIsRedirected(ip, port, six, cookie);
    assert OtherFamilyProxy(cfg, d) by {
      UnpackPack(ip[0], ip[1], ip[2], ip[3]);
      assert UnpackWord(cfg.proxyIp4) == ip;
    }
    StashReadsAsProxyIff(k, c, d);
  }
}
