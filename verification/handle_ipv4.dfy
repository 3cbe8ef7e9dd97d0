/** The home router's IPv4 forwarding link, `HandleIpv4`: a set-once builder
    for its ingress stream and addresses, and the fixed graph of
    ClassifyLinks, ProcessLinks and JoinLinks that `build_link` wires up.

    Every packet arrives annotated with the interface it came in on and
    leaves annotated with the interface it must go out on.  The graph is
    modelled stage by stage (`Forward`), and separately as one per-packet
    decision (`Decide`); `ForwardPermutesRoute` proves that the graph emits,
    up to the order the joins interleave lines, exactly what the decision
    function says, whatever the executor's choices. */
module HandleIpv4 {
  import opened Wrappers
  import opened Links
  import opened Ipv4

  // ---------------------------------------------------------------------------
  // Packets and their annotations
  // ---------------------------------------------------------------------------

  datatype Interface = Host | Lan | Wan | Unmarked

  /** An IPv4 packet, reduced to what the link reads: its source and
      destination addresses.  The rest of the packet is carried unread. */
  datatype Packet = Packet(src: Addr, dest: Addr, rest: seq<bv8>)

  /** `InterfaceAnnotated<Ipv4Packet>`. */
  datatype Annotated = Annotated(packet: Packet, inbound: Interface, outbound: Interface)

  // ---------------------------------------------------------------------------
  // The category enums and their dispatchers
  // ---------------------------------------------------------------------------

  datatype FromHostDestSubnet = Lan | Broadcast | Other
  datatype FromLanDestSubnet = MyLanIp | Lan | Broadcast | Other
  datatype FromLanSrcSubnet = MyLanIp | Other
  datatype FromWanDestSubnet = MyWanIp | Other
  datatype FromNatDestSubnet = MyLanIp | Other

  /** Dispatcher of the ClassifyLink by inbound interface (3 egress lines:
      from Host, from LAN, from WAN). */
  function DispatchInbound(i: Interface): (r: Option<nat>)
    ensures r.Some? ==> r.value < 3
    ensures r.None? <==> i == Unmarked
  {
    match i
    case Host => Some(0)
    case Lan => Some(1)
    case Wan => Some(2)
    case Unmarked => None
  }

  /** Dispatcher for Host traffic (2 lines: to the LAN, to the WAN). */
  function DispatchFromHost(c: FromHostDestSubnet): (r: Option<nat>)
    ensures r.Some? && r.value < 2
  {
    match c
    case Lan => Some(0)
    case Broadcast => Some(0)
    case Other => Some(1)
  }

  /** Dispatcher for LAN traffic (2 lines: to the Host, to the WAN); traffic
      for the LAN itself is dropped. */
  function DispatchFromLan(c: FromLanDestSubnet): (r: Option<nat>)
    ensures r.Some? ==> r.value < 2
    ensures r.None? <==> c == FromLanDestSubnet.Lan
  {
    match c
    case MyLanIp => Some(0)
    case Broadcast => Some(0)
    case Lan => None
    case Other => Some(1)
  }

  /** Dispatcher after NAT encapsulation, by source (2 lines: from the Host,
      from the LAN). */
  function DispatchNatSrc(c: FromLanSrcSubnet): (r: Option<nat>)
    ensures r.Some? && r.value < 2
  {
    match c
    case MyLanIp => Some(0)
    case Other => Some(1)
  }

  /** Dispatcher for WAN traffic (1 line); traffic not for the router's WAN
      address is dropped. */
  function DispatchFromWan(c: FromWanDestSubnet): (r: Option<nat>)
    ensures r.Some? ==> r.value < 1
    ensures r.None? <==> c == FromWanDestSubnet.Other
  {
    match c
    case MyWanIp => Some(0)
    case Other => None
  }

  /** Dispatcher after NAT decapsulation, by destination (2 lines: to the
      Host, to the LAN). */
  function DispatchNatDest(c: FromNatDestSubnet): (r: Option<nat>)
    ensures r.Some? && r.value < 2
  {
    match c
    case MyLanIp => Some(0)
    case Other => Some(1)
  }

  // ---------------------------------------------------------------------------
  // The builder
  // ---------------------------------------------------------------------------

  /** The router's addresses once all are set. */
  datatype Config = Config(wanIp: Addr, lanIp: Addr, lanSubnet: Cidr)

  datatype Handle = Handle(inStream: Option<seq<Annotated>>, wanIp: Option<Addr>,
                           lanIp: Option<Addr>, lanSubnet: Option<Cidr>)

  /** The panics of the builder, as error values. */
  datatype HandleError =
    | DuplicateWanIp
    | DuplicateLanIp
    | DuplicateLanSubnet
    | DuplicateIngressor
    | WrongIngressorCount(count: nat)
    | MissingIngressor
    | MissingWanIp
    | MissingLanIp
    | MissingLanSubnet

  function New(): (h: Handle)
    ensures h.inStream.None? && h.wanIp.None? && h.lanIp.None? && h.lanSubnet.None?
  {
    Handle(None, None, None, None)
  }

  function WanIp(h: Handle, a: Addr): (r: Result<Handle, HandleError>)
    ensures r.Success? <==> h.wanIp.None?
    ensures r.Failure? ==> r.error == DuplicateWanIp
    ensures r.Success? ==> r.value.wanIp == Some(a)
    ensures r.Success? ==> r.value.inStream == h.inStream && r.value.lanIp == h.lanIp && r.value.lanSubnet == h.lanSubnet
  {
    match h.wanIp
    case None => Success(h.(wanIp := Some(a)))
    case Some(_) => Failure(DuplicateWanIp)
  }

  function LanIp(h: Handle, a: Addr): (r: Result<Handle, HandleError>)
    ensures r.Success? <==> h.lanIp.None?
    ensures r.Failure? ==> r.error == DuplicateLanIp
    ensures r.Success? ==> r.value.lanIp == Some(a)
    ensures r.Success? ==> r.value.inStream == h.inStream && r.value.wanIp == h.wanIp && r.value.lanSubnet == h.lanSubnet
  {
    match h.lanIp
    case None => Success(h.(lanIp := Some(a)))
    case Some(_) => Failure(DuplicateLanIp)
  }

  /** The subnet is an `Ipv4Cidr`, whose network address the `cidr` crate
      guarantees has no host bits set. */
  function LanSubnet(h: Handle, c: Cidr): (r: Result<Handle, HandleError>)
    requires WellFormed(c)
    ensures r.Success? <==> h.lanSubnet.None?
    ensures r.Failure? ==> r.error == DuplicateLanSubnet
    ensures r.Success? ==> r.value.lanSubnet == Some(c)
    ensures r.Success? ==> r.value.inStream == h.inStream && r.value.wanIp == h.wanIp && r.value.lanIp == h.lanIp
  {
    match h.lanSubnet
    case None => Success(h.(lanSubnet := Some(c)))
    case Some(_) => Failure(DuplicateLanSubnet)
  }

  /** `ingressors`: refuses a second ingress first, then any count but one. */
  function Ingressors(h: Handle, streams: seq<seq<Annotated>>): (r: Result<Handle, HandleError>)
    ensures r.Success? <==> h.inStream.None? && |streams| == 1
    ensures h.inStream.Some? ==> r == Failure(DuplicateIngressor)
    ensures h.inStream.None? && |streams| != 1 ==> r == Failure(WrongIngressorCount(|streams|))
    ensures r.Success? ==> r.value.inStream == Some(streams[0])
    ensures r.Success? ==> r.value.wanIp == h.wanIp && r.value.lanIp == h.lanIp && r.value.lanSubnet == h.lanSubnet
  {
    if h.inStream.Some? then Failure(DuplicateIngressor)
    else if |streams| == 1 then Success(h.(inStream := Some(streams[0])))
    else Failure(WrongIngressorCount(|streams|))
  }

  /** `ingressor`: the single-stream form of `ingressors`. */
  function Ingressor(h: Handle, s: seq<Annotated>): (r: Result<Handle, HandleError>)
    ensures r.Success? <==> h.inStream.None?
    ensures r.Failure? ==> r.error == DuplicateIngressor
    ensures r.Success? ==> r.value.inStream == Some(s)
    ensures r.Success? ==> r.value.wanIp == h.wanIp && r.value.lanIp == h.lanIp && r.value.lanSubnet == h.lanSubnet
  {
    match h.inStream
    case None => Success(h.(inStream := Some(s)))
    case Some(_) => Failure(DuplicateIngressor)
  }

  // ---------------------------------------------------------------------------
  // Classifiers and processors of the graph
  // ---------------------------------------------------------------------------

  /** `ByDestSubnet` over the Host table: the limited broadcast address, then
      the LAN subnet (a later key replaces an equal earlier one). */
  function HostTable(cfg: Config): map<Cidr, FromHostDestSubnet>
  {
    map[HostBlock(LimitedBroadcast) := FromHostDestSubnet.Broadcast][cfg.lanSubnet := FromHostDestSubnet.Lan]
  }

  /** `ByDestSubnet` over the LAN table: the router's LAN address, the
      limited broadcast address, the subnet's last address, then the subnet. */
  function LanTable(cfg: Config): map<Cidr, FromLanDestSubnet>
  {
    map[HostBlock(cfg.lanIp) := FromLanDestSubnet.MyLanIp]
       [HostBlock(LimitedBroadcast) := FromLanDestSubnet.Broadcast]
       [HostBlock(LastAddress(cfg.lanSubnet)) := FromLanDestSubnet.Broadcast]
       [cfg.lanSubnet := FromLanDestSubnet.Lan]
  }

  function NatSrcTable(cfg: Config): map<Cidr, FromLanSrcSubnet>
  {
    map[HostBlock(cfg.lanIp) := FromLanSrcSubnet.MyLanIp]
  }

  function WanTable(cfg: Config): map<Cidr, FromWanDestSubnet>
  {
    map[HostBlock(cfg.wanIp) := FromWanDestSubnet.MyWanIp]
  }

  function NatDestTable(cfg: Config): map<Cidr, FromNatDestSubnet>
  {
    map[HostBlock(cfg.lanIp) := FromNatDestSubnet.MyLanIp]
  }

  /** Classifier followed by dispatcher, for each ClassifyLink of the graph. */
  const InboundRoute: Annotated -> Option<nat> := (a: Annotated) => DispatchInbound(a.inbound)

  function HostRoute(cfg: Config): Annotated -> Option<nat>
  {
    (a: Annotated) => DispatchFromHost(SubnetClass(HostTable(cfg), FromHostDestSubnet.Other, a.packet.dest))
  }

  function LanRoute(cfg: Config): Annotated -> Option<nat>
  {
    (a: Annotated) => DispatchFromLan(SubnetClass(LanTable(cfg), FromLanDestSubnet.Other, a.packet.dest))
  }

  function NatSrcRoute(cfg: Config): Annotated -> Option<nat>
  {
    (a: Annotated) => DispatchNatSrc(SubnetClass(NatSrcTable(cfg), FromLanSrcSubnet.Other, a.packet.src))
  }

  function WanRoute(cfg: Config): Annotated -> Option<nat>
  {
    (a: Annotated) => DispatchFromWan(SubnetClass(WanTable(cfg), FromWanDestSubnet.Other, a.packet.dest))
  }

  function NatDestRoute(cfg: Config): Annotated -> Option<nat>
  {
    (a: Annotated) => DispatchNatDest(SubnetClass(NatDestTable(cfg), FromNatDestSubnet.Other, a.packet.dest))
  }

  /** `InterfaceAnnotationSetOutbound`. */
  function SetOutbound(i: Interface): Annotated -> Option<Annotated>
  {
    (a: Annotated) => Some(a.(outbound := i))
  }

  /** `InterfaceAnnotationSetInbound`. */
  function SetInbound(i: Interface): Annotated -> Option<Annotated>
  {
    (a: Annotated) => Some(a.(inbound := i))
  }

  /** `InterfaceAnnotationDecap`: strips the annotation. */
  const Decap: Annotated -> Option<Packet> := (a: Annotated) => Some(a.packet)

  /** `InterfaceAnnotationEncap`: annotates afresh. */
  function Encap(inbound: Interface, outbound: Interface): Packet -> Option<Annotated>
  {
    (p: Packet) => Some(Annotated(p, inbound, outbound))
  }

  /** The `Identity` processor standing in for NAT. */
  const Nat: Packet -> Option<Packet> := (p: Packet) => Some(p)

  // ---------------------------------------------------------------------------
  // The graph
  // ---------------------------------------------------------------------------

  /** The classifier-and-dispatcher of each address-based ClassifyLink. */
  datatype Routes = Routes(host: Annotated -> Option<nat>, lan: Annotated -> Option<nat>,
                           natSrc: Annotated -> Option<nat>, wan: Annotated -> Option<nat>,
                           natDest: Annotated -> Option<nat>)

  function RoutesOf(cfg: Config): Routes
  {
    Routes(HostRoute(cfg), LanRoute(cfg), NatSrcRoute(cfg), WanRoute(cfg), NatDestRoute(cfg))
  }

  /** Host traffic for the LAN (or a broadcast), tagged to go out the LAN. */
  function HostToLanAnnotated(r: Routes, fromHost: seq<Annotated>): seq<Annotated>
  {
    Apply(SetOutbound(Interface.Lan), Branch(r.host, 0, fromHost))
  }

  /** Host traffic for elsewhere, annotation stripped. */
  function HostToWan(r: Routes, fromHost: seq<Annotated>): seq<Packet>
  {
    Apply(Decap, Branch(r.host, 1, fromHost))
  }

  /** LAN traffic for the router itself (or a broadcast), tagged to go out
      to the Host. */
  function LanToHostAnnotated(r: Routes, fromLan: seq<Annotated>): seq<Annotated>
  {
    Apply(SetOutbound(Host), Branch(r.lan, 0, fromLan))
  }

  /** LAN traffic for outside the LAN, annotation stripped. */
  function LanToWan(r: Routes, fromLan: seq<Annotated>): seq<Packet>
  {
    Apply(Decap, Branch(r.lan, 1, fromLan))
  }

  /** The joined Host and LAN traffic for the WAN, through NAT and annotated
      as from the LAN to the WAN. */
  function NatEncapAnnotated(joined: seq<Packet>): seq<Annotated>
  {
    Apply(Encap(Interface.Lan, Wan), Apply(Nat, joined))
  }

  /** NAT output whose source is the router's LAN address, re-tagged as from
      the Host. */
  function HostThroughNatAnnotated(r: Routes, encapped: seq<Annotated>): seq<Annotated>
  {
    Apply(SetInbound(Host), Branch(r.natSrc, 0, encapped))
  }

  function LanThroughNatAnnotated(r: Routes, encapped: seq<Annotated>): seq<Annotated>
  {
    Branch(r.natSrc, 1, encapped)
  }

  /** WAN traffic for the router's WAN address, through NAT and annotated as
      from the WAN to the LAN. */
  function NatDecapAnnotated(r: Routes, fromWan: seq<Annotated>): seq<Annotated>
  {
    Apply(Encap(Wan, Interface.Lan), Apply(Nat, Apply(Decap, Branch(r.wan, 0, fromWan))))
  }

  function NatToLanAnnotated(r: Routes, decapped: seq<Annotated>): seq<Annotated>
  {
    Branch(r.natDest, 1, decapped)
  }

  /** NAT output for the router's LAN address, tagged to go out to the Host. */
  function NatToHostAnnotated(r: Routes, decapped: seq<Annotated>): seq<Annotated>
  {
    Apply(SetOutbound(Host), Branch(r.natDest, 0, decapped))
  }

  /** The NAT JoinLink's output: Host and LAN traffic for the WAN, in the
      order the executor's schedule interleaves them. */
  function NatJoined(r: Routes, input: seq<Annotated>, natSchedule: seq<nat>): seq<Packet>
  {
    Join([HostToWan(r, Branch(InboundRoute, 0, input)), LanToWan(r, Branch(InboundRoute, 1, input))], natSchedule)
  }

  /** The six ingress lines of the final JoinLink, in the order `build_link`
      lists them. */
  function FinalLines(r: Routes, input: seq<Annotated>, natSchedule: seq<nat>): (lines: seq<seq<Annotated>>)
    ensures |lines| == 6
  {
    var fromHost := Branch(InboundRoute, 0, input);
    var fromLan := Branch(InboundRoute, 1, input);
    var encapped := NatEncapAnnotated(NatJoined(r, input, natSchedule));
    var decapped := NatDecapAnnotated(r, Branch(InboundRoute, 2, input));
    [ HostToLanAnnotated(r, fromHost),
      HostThroughNatAnnotated(r, encapped),
      LanThroughNatAnnotated(r, encapped),
      LanToHostAnnotated(r, fromLan),
      NatToLanAnnotated(r, decapped),
      NatToHostAnnotated(r, decapped) ]
  }

  /** The link's one egress stream.  The executor's choices at the NAT join
      and at the final join are the two schedules. */
  function Forward(cfg: Config, input: seq<Annotated>, natSchedule: seq<nat>, finalSchedule: seq<nat>): seq<Annotated>
  {
    Join(FinalLines(RoutesOf(cfg), input, natSchedule), finalSchedule)
  }

  /** `build_link`: refuses a missing ingress stream, WAN address, LAN address
      or LAN subnet, in that order, and otherwise yields the egress stream. */
  function BuildLink(h: Handle, natSchedule: seq<nat>, finalSchedule: seq<nat>): (r: Result<seq<Annotated>, HandleError>)
    ensures r.Success? <==> h.inStream.Some? && h.wanIp.Some? && h.lanIp.Some? && h.lanSubnet.Some?
    ensures h.inStream.None? ==> r == Failure(MissingIngressor)
    ensures h.inStream.Some? && h.wanIp.None? ==> r == Failure(MissingWanIp)
    ensures h.inStream.Some? && h.wanIp.Some? && h.lanIp.None? ==> r == Failure(MissingLanIp)
    ensures h.inStream.Some? && h.wanIp.Some? && h.lanIp.Some? && h.lanSubnet.None? ==> r == Failure(MissingLanSubnet)
    ensures r.Success? ==> |r.value| <= |h.inStream.value|
    ensures r.Success? ==> multiset(r.value)
                           == multiset(Apply(Route(Config(h.wanIp.value, h.lanIp.value, h.lanSubnet.value)), h.inStream.value))
  {
    if h.inStream.None? then Failure(MissingIngressor)
    else if h.wanIp.None? then Failure(MissingWanIp)
    else if h.lanIp.None? then Failure(MissingLanIp)
    else if h.lanSubnet.None? then Failure(MissingLanSubnet)
    else
      var cfg := Config(h.wanIp.value, h.lanIp.value, h.lanSubnet.value);
      ForwardBound(cfg, h.inStream.value, natSchedule, finalSchedule);
      ForwardPermutesRoute(cfg, h.inStream.value, natSchedule, finalSchedule);
      Success(Forward(cfg, h.inStream.value, natSchedule, finalSchedule))
  }

  // ---------------------------------------------------------------------------
  // The per-packet decision
  // ---------------------------------------------------------------------------

  /** The interface annotations a packet leaves with. */
  datatype Verdict = Verdict(inbound: Interface, outbound: Interface)

  /** Destinations Host traffic delivers on the LAN side. */
  predicate ToLanSide(cfg: Config, dest: Addr)
  {
    dest == LimitedBroadcast || Contains(cfg.lanSubnet, dest)
  }

  /** Destinations LAN traffic delivers to the Host: the router's LAN address
      and the two broadcast addresses, unless the subnet is that very /32
      block, whose entry replaces theirs in the table. */
  predicate ForRouter(cfg: Config, dest: Addr)
  {
    && (dest == cfg.lanIp || dest == LimitedBroadcast || dest == LastAddress(cfg.lanSubnet))
    && cfg.lanSubnet != HostBlock(dest)
  }

  /** The annotations of traffic leaving through NAT for the WAN: from the
      Host when it carries the router's LAN address as source, else from the
      LAN. */
  function TowardWan(cfg: Config, src: Addr): Verdict
  {
    Verdict(if src == cfg.lanIp then Host else Interface.Lan, Wan)
  }

  /** What becomes of a packet that came in on `inbound`: dropped (`None`), or
      the annotations it leaves with. */
  function Decide(cfg: Config, inbound: Interface, src: Addr, dest: Addr): (r: Option<Verdict>)
    ensures r.Some? ==> inbound != Unmarked && r.value.inbound != Unmarked && r.value.outbound != Unmarked
    ensures r.Some? ==> r.value.outbound != inbound
    ensures inbound == Unmarked ==> r.None?
  {
    match inbound
    case Unmarked => None
    case Host =>
      if ToLanSide(cfg, dest) then Some(Verdict(Host, Interface.Lan))
      else Some(TowardWan(cfg, src))
    case Lan =>
      if ForRouter(cfg, dest) then Some(Verdict(Interface.Lan, Host))
      else if Contains(cfg.lanSubnet, dest) then None
      else Some(TowardWan(cfg, src))
    case Wan =>
      if dest != cfg.wanIp then None
      else Some(Verdict(Wan, if dest == cfg.lanIp then Host else Interface.Lan))
  }

  /** The packet as it leaves, if it does.  Nothing but the annotations
      changes, no packet leaves marked `Unmarked` or came in unmarked, and
      none goes back out the interface it came in on. */
  function RouteOf(cfg: Config, a: Annotated): (r: Option<Annotated>)
    ensures r.Some? ==> r.value.packet == a.packet
    ensures r.Some? ==> a.inbound != Unmarked && r.value.inbound != Unmarked && r.value.outbound != Unmarked
    ensures r.Some? ==> r.value.outbound != a.inbound
  {
    match Decide(cfg, a.inbound, a.packet.src, a.packet.dest)
    case None => None
    case Some(v) => Some(Annotated(a.packet, v.inbound, v.outbound))
  }

  function Route(cfg: Config): Annotated -> Option<Annotated>
  {
    (a: Annotated) => RouteOf(cfg, a)
  }

  // ---------------------------------------------------------------------------
  // The classifiers, evaluated
  // ---------------------------------------------------------------------------

  /** A table of one host block puts that one address, and no other, in the
      block's category. */
  lemma SingleHostClass<C>(a: Addr, c: C, default: C, x: Addr)
    ensures SubnetClass(map[HostBlock(a) := c], default, x) == if x == a then c else default
  {
    var table := map[HostBlock(a) := c];
    LongestBlockSpec(table, x);
    InHostBlock(a, x);
    if x == a {
      assert HostBlock(a) in table;
      assert LongestBlock(table, x).Some?;
      assert LongestBlock(table, x).value == HostBlock(a);
    } else {
      assert LongestBlock(table, x).None?;
    }
  }

  /** Host traffic goes to the LAN line exactly for the limited broadcast
      address and the LAN subnet, whichever of the overlapping entries
      matches longest. */
  lemma HostDispatch(cfg: Config, d: Addr)
    ensures DispatchFromHost(SubnetClass(HostTable(cfg), FromHostDestSubnet.Other, d))
            == if ToLanSide(cfg, d) then Some(0) else Some(1)
  {
    var table := HostTable(cfg);
    var bcast := HostBlock(LimitedBroadcast);
    LongestBlockSpec(table, d);
    InHostBlock(LimitedBroadcast, d);
    assert forall k :: k in table ==> k == bcast || k == cfg.lanSubnet;
    assert forall k :: k in table ==> table[k] != FromHostDestSubnet.Other;
    if d == LimitedBroadcast {
      assert bcast in table && Contains(bcast, d);
    } else if Contains(cfg.lanSubnet, d) {
      assert cfg.lanSubnet in table;
    }
  }

  /** The LAN table's keys: three host blocks and the subnet. */
  lemma LanTableKeys(cfg: Config)
    ensures forall k :: k in LanTable(cfg) <==>
              k == HostBlock(cfg.lanIp) || k == HostBlock(LimitedBroadcast)
              || k == HostBlock(LastAddress(cfg.lanSubnet)) || k == cfg.lanSubnet
  {
  }

  /** An address whose host block is a key of the LAN table is classified by
      that entry, the subnet's entry winning when the subnet is that block. */
  lemma LanClassAtHost(cfg: Config, d: Addr)
    requires HostBlock(d) in LanTable(cfg)
    ensures SubnetClass(LanTable(cfg), FromLanDestSubnet.Other, d)
            == if cfg.lanSubnet == HostBlock(d) then FromLanDestSubnet.Lan
               else if d == cfg.lanIp && d != LimitedBroadcast && d != LastAddress(cfg.lanSubnet) then FromLanDestSubnet.MyLanIp
               else FromLanDestSubnet.Broadcast
  {
    var table := LanTable(cfg);
    HostBlockLongest(table, d);
    var hb := HostBlock(d);
    if cfg.lanSubnet == hb {
      assert table[hb] == FromLanDestSubnet.Lan;
    } else if hb == HostBlock(LastAddress(cfg.lanSubnet)) || hb == HostBlock(LimitedBroadcast) {
      assert table[hb] == FromLanDestSubnet.Broadcast;
    } else {
      assert table[hb] == FromLanDestSubnet.MyLanIp;
    }
  }

  /** Any other address is in the LAN category when the subnet holds it, and
      in none otherwise. */
  lemma LanClassElsewhere(cfg: Config, d: Addr)
    requires HostBlock(d) !in LanTable(cfg)
    ensures SubnetClass(LanTable(cfg), FromLanDestSubnet.Other, d)
            == if Contains(cfg.lanSubnet, d) then FromLanDestSubnet.Lan else FromLanDestSubnet.Other
  {
    var table := LanTable(cfg);
    LanTableKeys(cfg);
    InHostBlock(cfg.lanIp, d);
    InHostBlock(LimitedBroadcast, d);
    InHostBlock(LastAddress(cfg.lanSubnet), d);
    if Contains(cfg.lanSubnet, d) {
      OnlyMatch(table, d, cfg.lanSubnet);
    } else {
      LongestBlockSpec(table, d);
    }
  }

  /** LAN traffic goes to the Host line for the router's own addresses, is
      dropped for the rest of the LAN subnet, and goes to the WAN line
      otherwise. */
  lemma LanDispatch(cfg: Config, d: Addr)
    ensures DispatchFromLan(SubnetClass(LanTable(cfg), FromLanDestSubnet.Other, d))
            == if ForRouter(cfg, d) then Some(0)
               else if Contains(cfg.lanSubnet, d) then None
               else Some(1)
  {
    LanTableKeys(cfg);
    if HostBlock(d) in LanTable(cfg) {
      LanClassAtHost(cfg, d);
      InHostBlock(d, d);
    } else {
      LanClassElsewhere(cfg, d);
    }
  }

  lemma NatSrcDispatch(cfg: Config, src: Addr)
    ensures DispatchNatSrc(SubnetClass(NatSrcTable(cfg), FromLanSrcSubnet.Other, src))
            == if src == cfg.lanIp then Some(0) else Some(1)
  {
    SingleHostClass(cfg.lanIp, FromLanSrcSubnet.MyLanIp, FromLanSrcSubnet.Other, src);
  }

  lemma WanDispatch(cfg: Config, d: Addr)
    ensures DispatchFromWan(SubnetClass(WanTable(cfg), FromWanDestSubnet.Other, d))
            == if d == cfg.wanIp then Some(0) else None
  {
    SingleHostClass(cfg.wanIp, FromWanDestSubnet.MyWanIp, FromWanDestSubnet.Other, d);
  }

  lemma NatDestDispatch(cfg: Config, d: Addr)
    ensures DispatchNatDest(SubnetClass(NatDestTable(cfg), FromNatDestSubnet.Other, d))
            == if d == cfg.lanIp then Some(0) else Some(1)
  {
    SingleHostClass(cfg.lanIp, FromNatDestSubnet.MyLanIp, FromNatDestSubnet.Other, d);
  }

  /** No ClassifyLink of the graph ever dispatches out of range: each of the
      six succeeds on whatever stream reaches it, so `Branch` is its
      egress line. */
  lemma ClassifyLinksSucceed(cfg: Config, s: seq<Annotated>)
    ensures Classify(InboundRoute, 3, s).Success?
    ensures Classify(HostRoute(cfg), 2, s).Success?
    ensures Classify(LanRoute(cfg), 2, s).Success?
    ensures Classify(NatSrcRoute(cfg), 2, s).Success?
    ensures Classify(WanRoute(cfg), 1, s).Success?
    ensures Classify(NatDestRoute(cfg), 2, s).Success?
  {
  }

  // ---------------------------------------------------------------------------
  // The graph, lane by lane
  // ---------------------------------------------------------------------------

  /** The stages a packet passes on its way to each final-join line, each
      composed into one processor over the link's input. */
  function HostLanLane(r: Routes): Annotated -> Option<Annotated>
  {
    Then(Only(InboundRoute, 0), Then(Only(r.host, 0), SetOutbound(Interface.Lan)))
  }

  function HostWanLane(r: Routes): Annotated -> Option<Packet>
  {
    Then(Only(InboundRoute, 0), Then(Only(r.host, 1), Decap))
  }

  function LanHostLane(r: Routes): Annotated -> Option<Annotated>
  {
    Then(Only(InboundRoute, 1), Then(Only(r.lan, 0), SetOutbound(Host)))
  }

  function LanWanLane(r: Routes): Annotated -> Option<Packet>
  {
    Then(Only(InboundRoute, 1), Then(Only(r.lan, 1), Decap))
  }

  function NatOutHost(r: Routes): Packet -> Option<Annotated>
  {
    Then(Then(Nat, Encap(Interface.Lan, Wan)), Then(Only(r.natSrc, 0), SetInbound(Host)))
  }

  function NatOutLan(r: Routes): Packet -> Option<Annotated>
  {
    Then(Then(Nat, Encap(Interface.Lan, Wan)), Only(r.natSrc, 1))
  }

  function WanStage(r: Routes): Annotated -> Option<Annotated>
  {
    Then(Only(r.wan, 0), Then(Decap, Then(Nat, Encap(Wan, Interface.Lan))))
  }

  function NatLanLane(r: Routes): Annotated -> Option<Annotated>
  {
    Then(Only(InboundRoute, 2), Then(WanStage(r), Only(r.natDest, 1)))
  }

  function NatHostLane(r: Routes): Annotated -> Option<Annotated>
  {
    Then(Only(InboundRoute, 2), Then(WanStage(r), Then(Only(r.natDest, 0), SetOutbound(Host))))
  }

  lemma HostLines(r: Routes, input: seq<Annotated>)
    ensures HostToLanAnnotated(r, Branch(InboundRoute, 0, input)) == Apply(HostLanLane(r), input)
    ensures HostToWan(r, Branch(InboundRoute, 0, input)) == Apply(HostWanLane(r), input)
  {
    var fromHost := Branch(InboundRoute, 0, input);
    ApplyThen(Only(r.host, 0), SetOutbound(Interface.Lan), fromHost);
    ApplyThen(Only(InboundRoute, 0), Then(Only(r.host, 0), SetOutbound(Interface.Lan)), input);
    ApplyThen(Only(r.host, 1), Decap, fromHost);
    ApplyThen(Only(InboundRoute, 0), Then(Only(r.host, 1), Decap), input);
  }

  lemma LanLines(r: Routes, input: seq<Annotated>)
    ensures LanToHostAnnotated(r, Branch(InboundRoute, 1, input)) == Apply(LanHostLane(r), input)
    ensures LanToWan(r, Branch(InboundRoute, 1, input)) == Apply(LanWanLane(r), input)
  {
    var fromLan := Branch(InboundRoute, 1, input);
    ApplyThen(Only(r.lan, 0), SetOutbound(Host), fromLan);
    ApplyThen(Only(InboundRoute, 1), Then(Only(r.lan, 0), SetOutbound(Host)), input);
    ApplyThen(Only(r.lan, 1), Decap, fromLan);
    ApplyThen(Only(InboundRoute, 1), Then(Only(r.lan, 1), Decap), input);
  }

  lemma NatOutLines(r: Routes, joined: seq<Packet>)
    ensures HostThroughNatAnnotated(r, NatEncapAnnotated(joined)) == Apply(NatOutHost(r), joined)
    ensures LanThroughNatAnnotated(r, NatEncapAnnotated(joined)) == Apply(NatOutLan(r), joined)
  {
    var encap := Then(Nat, Encap(Interface.Lan, Wan));
    ApplyThen(Nat, Encap(Interface.Lan, Wan), joined);
    var encapped := Apply(encap, joined);
    ApplyThen(Only(r.natSrc, 0), SetInbound(Host), encapped);
    ApplyThen(encap, Then(Only(r.natSrc, 0), SetInbound(Host)), joined);
    ApplyThen(encap, Only(r.natSrc, 1), joined);
  }

  lemma WanDecapLine(r: Routes, fromWan: seq<Annotated>)
    ensures NatDecapAnnotated(r, fromWan) == Apply(WanStage(r), fromWan)
  {
    var toLan := Then(Nat, Encap(Wan, Interface.Lan));
    ApplyThen(Nat, Encap(Wan, Interface.Lan), Apply(Decap, Branch(r.wan, 0, fromWan)));
    ApplyThen(Decap, toLan, Branch(r.wan, 0, fromWan));
    ApplyThen(Only(r.wan, 0), Then(Decap, toLan), fromWan);
  }

  lemma NatInLines(r: Routes, input: seq<Annotated>)
    ensures NatToLanAnnotated(r, NatDecapAnnotated(r, Branch(InboundRoute, 2, input))) == Apply(NatLanLane(r), input)
    ensures NatToHostAnnotated(r, NatDecapAnnotated(r, Branch(InboundRoute, 2, input))) == Apply(NatHostLane(r), input)
  {
    var fromWan := Branch(InboundRoute, 2, input);
    WanDecapLine(r, fromWan);
    ApplyThen(WanStage(r), Only(r.natDest, 1), fromWan);
    ApplyThen(Only(InboundRoute, 2), Then(WanStage(r), Only(r.natDest, 1)), input);
    var toHost := Then(Only(r.natDest, 0), SetOutbound(Host));
    ApplyThen(Only(r.natDest, 0), SetOutbound(Host), Apply(WanStage(r), fromWan));
    ApplyThen(WanStage(r), toHost, fromWan);
    ApplyThen(Only(InboundRoute, 2), Then(WanStage(r), toHost), input);
  }

  /** Whatever the routes, the four final-join lines that bypass the NAT
      join are the composed stages applied to the link's input... */
  lemma DirectLines(r: Routes, input: seq<Annotated>, natSchedule: seq<nat>)
    ensures FinalLines(r, input, natSchedule)[0] == Apply(HostLanLane(r), input)
    ensures FinalLines(r, input, natSchedule)[3] == Apply(LanHostLane(r), input)
    ensures FinalLines(r, input, natSchedule)[4] == Apply(NatLanLane(r), input)
    ensures FinalLines(r, input, natSchedule)[5] == Apply(NatHostLane(r), input)
  {
    var lines := FinalLines(r, input, natSchedule);
    var decapped := NatDecapAnnotated(r, Branch(InboundRoute, 2, input));
    assert lines[0] == HostToLanAnnotated(r, Branch(InboundRoute, 0, input));
    assert lines[3] == LanToHostAnnotated(r, Branch(InboundRoute, 1, input));
    assert lines[4] == NatToLanAnnotated(r, decapped);
    assert lines[5] == NatToHostAnnotated(r, decapped);
    HostLines(r, input);
    LanLines(r, input);
    NatInLines(r, input);
  }

  /** Any processor after the NAT join sees, up to order, the Host lane's
      and the LAN lane's packets toward the WAN... */
  lemma AfterNatJoin(r: Routes, input: seq<Annotated>, natSchedule: seq<nat>, out: Packet -> Option<Annotated>)
    ensures multiset(Apply(out, NatJoined(r, input, natSchedule)))
            == multiset(Apply(Then(HostWanLane(r), out), input)) + multiset(Apply(Then(LanWanLane(r), out), input))
  {
    var hostWan, lanWan := Apply(HostWanLane(r), input), Apply(LanWanLane(r), input);
    HostLines(r, input);
    LanLines(r, input);
    ApplyAfterJoinPair(out, hostWan, lanWan, natSchedule);
    ApplyThen(HostWanLane(r), out, input);
    ApplyThen(LanWanLane(r), out, input);
  }

  /** ...so the two final-join lines behind it are the NAT and the source
      classifier applied to both. */
  lemma NatHostLine(r: Routes, input: seq<Annotated>, natSchedule: seq<nat>)
    ensures multiset(FinalLines(r, input, natSchedule)[1])
            == multiset(Apply(Then(HostWanLane(r), NatOutHost(r)), input))
             + multiset(Apply(Then(LanWanLane(r), NatOutHost(r)), input))
  {
    var joined := NatJoined(r, input, natSchedule);
    NatOutLines(r, joined);
    assert FinalLines(r, input, natSchedule)[1] == Apply(NatOutHost(r), joined);
    AfterNatJoin(r, input, natSchedule, NatOutHost(r));
  }

  lemma NatLanLine(r: Routes, input: seq<Annotated>, natSchedule: seq<nat>)
    ensures multiset(FinalLines(r, input, natSchedule)[2])
            == multiset(Apply(Then(HostWanLane(r), NatOutLan(r)), input))
             + multiset(Apply(Then(LanWanLane(r), NatOutLan(r)), input))
  {
    var joined := NatJoined(r, input, natSchedule);
    NatOutLines(r, joined);
    assert FinalLines(r, input, natSchedule)[2] == Apply(NatOutLan(r), joined);
    AfterNatJoin(r, input, natSchedule, NatOutLan(r));
  }

  // ---------------------------------------------------------------------------
  // The router's routes, packet by packet
  // ---------------------------------------------------------------------------

  /** The final-join line each packet reaches, if any. */
  function LineOf(cfg: Config, a: Annotated): Option<nat>
  {
    var src, dest := a.packet.src, a.packet.dest;
    match a.inbound
    case Unmarked => None
    case Host =>
      if ToLanSide(cfg, dest) then Some(0)
      else if src == cfg.lanIp then Some(1) else Some(2)
    case Lan =>
      if ForRouter(cfg, dest) then Some(3)
      else if Contains(cfg.lanSubnet, dest) then None
      else if src == cfg.lanIp then Some(1) else Some(2)
    case Wan =>
      if dest != cfg.wanIp then None
      else if dest == cfg.lanIp then Some(5) else Some(4)
  }

  function PathOf(cfg: Config): Annotated -> Option<nat>
  {
    (a: Annotated) => LineOf(cfg, a)
  }

  lemma HostLanAt(cfg: Config, a: Annotated)
    ensures HostLanLane(RoutesOf(cfg))(a) == if a.inbound == Host && ToLanSide(cfg, a.packet.dest)
                                            then Some(a.(outbound := Interface.Lan)) else None
  {
    HostDispatch(cfg, a.packet.dest);
  }

  lemma HostWanAt(cfg: Config, a: Annotated)
    ensures HostWanLane(RoutesOf(cfg))(a) == if a.inbound == Host && !ToLanSide(cfg, a.packet.dest)
                                            then Some(a.packet) else None
  {
    HostDispatch(cfg, a.packet.dest);
  }

  lemma LanHostAt(cfg: Config, a: Annotated)
    ensures LanHostLane(RoutesOf(cfg))(a) == if a.inbound == Interface.Lan && ForRouter(cfg, a.packet.dest)
                                            then Some(a.(outbound := Host)) else None
  {
    LanDispatch(cfg, a.packet.dest);
  }

  lemma LanWanAt(cfg: Config, a: Annotated)
    ensures LanWanLane(RoutesOf(cfg))(a) == if a.inbound == Interface.Lan && !ForRouter(cfg, a.packet.dest)
                                              && !Contains(cfg.lanSubnet, a.packet.dest)
                                            then Some(a.packet) else None
  {
    LanDispatch(cfg, a.packet.dest);
  }

  lemma NatOutAt(cfg: Config, p: Packet)
    ensures NatOutHost(RoutesOf(cfg))(p) == if p.src == cfg.lanIp then Some(Annotated(p, Host, Wan)) else None
    ensures NatOutLan(RoutesOf(cfg))(p) == if p.src != cfg.lanIp then Some(Annotated(p, Interface.Lan, Wan)) else None
  {
    NatSrcDispatch(cfg, p.src);
  }

  lemma WanStageAt(cfg: Config, a: Annotated)
    ensures WanStage(RoutesOf(cfg))(a) == if a.packet.dest == cfg.wanIp
                                          then Some(Annotated(a.packet, Wan, Interface.Lan)) else None
  {
    WanDispatch(cfg, a.packet.dest);
  }

  /** The two lanes from the WAN, for any routes, in terms of what the WAN
      stage and the NAT-destination route do with the packet. */
  lemma NatLanesWith(r: Routes, a: Annotated, forMe: bool, toHost: bool)
    requires WanStage(r)(a) == if forMe then Some(Annotated(a.packet, Wan, Interface.Lan)) else None
    requires r.natDest(Annotated(a.packet, Wan, Interface.Lan)) == if toHost then Some(0) else Some(1)
    ensures NatLanLane(r)(a) == if a.inbound == Wan && forMe && !toHost
                                then Some(Annotated(a.packet, Wan, Interface.Lan)) else None
    ensures NatHostLane(r)(a) == if a.inbound == Wan && forMe && toHost
                                 then Some(Annotated(a.packet, Wan, Host)) else None
  {
  }

  lemma NatInAt(cfg: Config, a: Annotated)
    ensures NatLanLane(RoutesOf(cfg))(a) == if a.inbound == Wan && a.packet.dest == cfg.wanIp && a.packet.dest != cfg.lanIp
                                            then Some(Annotated(a.packet, Wan, Interface.Lan)) else None
    ensures NatHostLane(RoutesOf(cfg))(a) == if a.inbound == Wan && a.packet.dest == cfg.wanIp && a.packet.dest == cfg.lanIp
                                             then Some(Annotated(a.packet, Wan, Host)) else None
  {
    WanStageAt(cfg, a);
    NatDestDispatch(cfg, a.packet.dest);
    NatLanesWith(RoutesOf(cfg), a, a.packet.dest == cfg.wanIp, a.packet.dest == cfg.lanIp);
  }

  /** Each direct lane, with the router's routes, keeps exactly the packets
      the decision function sends to its line. */
  lemma HostLanPickAt(cfg: Config, a: Annotated)
    ensures HostLanLane(RoutesOf(cfg))(a) == Pick(PathOf(cfg), Route(cfg), 0)(a)
  {
    HostLanAt(cfg, a);
  }

  lemma HostLanPick(cfg: Config, input: seq<Annotated>)
    ensures Apply(HostLanLane(RoutesOf(cfg)), input) == Apply(Pick(PathOf(cfg), Route(cfg), 0), input)
  {
    forall j | 0 <= j < |input|
      ensures HostLanLane(RoutesOf(cfg))(input[j]) == Pick(PathOf(cfg), Route(cfg), 0)(input[j])
    {
      HostLanPickAt(cfg, input[j]);
    }
    ApplyAgree(HostLanLane(RoutesOf(cfg)), Pick(PathOf(cfg), Route(cfg), 0), input);
  }

  lemma LanHostPickAt(cfg: Config, a: Annotated)
    ensures LanHostLane(RoutesOf(cfg))(a) == Pick(PathOf(cfg), Route(cfg), 3)(a)
  {
    LanHostAt(cfg, a);
  }

  lemma LanHostPick(cfg: Config, input: seq<Annotated>)
    ensures Apply(LanHostLane(RoutesOf(cfg)), input) == Apply(Pick(PathOf(cfg), Route(cfg), 3), input)
  {
    forall j | 0 <= j < |input|
      ensures LanHostLane(RoutesOf(cfg))(input[j]) == Pick(PathOf(cfg), Route(cfg), 3)(input[j])
    {
      LanHostPickAt(cfg, input[j]);
    }
    ApplyAgree(LanHostLane(RoutesOf(cfg)), Pick(PathOf(cfg), Route(cfg), 3), input);
  }

  /** Lines 4 and 5 hold WAN traffic for the router's WAN address only. */
  lemma WanPick(cfg: Config, a: Annotated, k: nat)
    requires k == 4 || k == 5
    ensures Pick(PathOf(cfg), Route(cfg), k)(a)
            == if a.inbound == Wan && a.packet.dest == cfg.wanIp && (a.packet.dest == cfg.lanIp <==> k == 5)
               then Some(Annotated(a.packet, Wan, if k == 5 then Host else Interface.Lan)) else None
  {
  }

  lemma NatLanPickAt(cfg: Config, a: Annotated)
    ensures NatLanLane(RoutesOf(cfg))(a) == Pick(PathOf(cfg), Route(cfg), 4)(a)
  {
    NatInAt(cfg, a);
    WanPick(cfg, a, 4);
  }

  lemma NatLanPick(cfg: Config, input: seq<Annotated>)
    ensures Apply(NatLanLane(RoutesOf(cfg)), input) == Apply(Pick(PathOf(cfg), Route(cfg), 4), input)
  {
    forall j | 0 <= j < |input|
      ensures NatLanLane(RoutesOf(cfg))(input[j]) == Pick(PathOf(cfg), Route(cfg), 4)(input[j])
    {
      NatLanPickAt(cfg, input[j]);
    }
    ApplyAgree(NatLanLane(RoutesOf(cfg)), Pick(PathOf(cfg), Route(cfg), 4), input);
  }

  lemma NatHostPickAt(cfg: Config, a: Annotated)
    ensures NatHostLane(RoutesOf(cfg))(a) == Pick(PathOf(cfg), Route(cfg), 5)(a)
  {
    NatInAt(cfg, a);
    WanPick(cfg, a, 5);
  }

  lemma NatHostPick(cfg: Config, input: seq<Annotated>)
    ensures Apply(NatHostLane(RoutesOf(cfg)), input) == Apply(Pick(PathOf(cfg), Route(cfg), 5), input)
  {
    forall j | 0 <= j < |input|
      ensures NatHostLane(RoutesOf(cfg))(input[j]) == Pick(PathOf(cfg), Route(cfg), 5)(input[j])
    {
      NatHostPickAt(cfg, input[j]);
    }
    ApplyAgree(NatHostLane(RoutesOf(cfg)), Pick(PathOf(cfg), Route(cfg), 5), input);
  }

  /** The two lanes through the NAT join into line `k` (1 or 2) together keep
      exactly the packets the decision function sends to line `k`. */
  lemma NatLanesPick(cfg: Config, input: seq<Annotated>, k: nat)
    requires k == 1 || k == 2
    ensures multiset(Apply(Then(HostWanLane(RoutesOf(cfg)), if k == 1 then NatOutHost(RoutesOf(cfg)) else NatOutLan(RoutesOf(cfg))), input))
          + multiset(Apply(Then(LanWanLane(RoutesOf(cfg)), if k == 1 then NatOutHost(RoutesOf(cfg)) else NatOutLan(RoutesOf(cfg))), input))
            == multiset(Apply(Pick(PathOf(cfg), Route(cfg), k), input))
  {
    var r := RoutesOf(cfg);
    var out := if k == 1 then NatOutHost(r) else NatOutLan(r);
    var viaHost, viaLan, pick := Then(HostWanLane(r), out), Then(LanWanLane(r), out), Pick(PathOf(cfg), Route(cfg), k);
    forall j | 0 <= j < |input|
      ensures viaHost(input[j]).None? || viaLan(input[j]).None?
      ensures pick(input[j]) == if viaHost(input[j]).Some? then viaHost(input[j]) else viaLan(input[j])
    {
      HostWanAt(cfg, input[j]);
      LanWanAt(cfg, input[j]);
      NatOutAt(cfg, input[j].packet);
    }
    ApplyUnion(viaHost, viaLan, pick, input);
  }

  /** Every packet the decision function keeps goes to one of the six
      lines. */
  lemma PathCoversRoute(cfg: Config, a: Annotated)
    ensures PickBelow(PathOf(cfg), Route(cfg), 6)(a) == Route(cfg)(a)
  {
  }

  /** Each final-join line, with the router's routes, holds exactly the
      packets the decision function sends to it. */
  lemma Line0Agrees(cfg: Config, input: seq<Annotated>, natSchedule: seq<nat>)
    ensures multiset(FinalLines(RoutesOf(cfg), input, natSchedule)[0])
            == multiset(Apply(Pick(PathOf(cfg), Route(cfg), 0), input))
  {
    DirectLines(RoutesOf(cfg), input, natSchedule);
    HostLanPick(cfg, input);
  }

  lemma Line1Agrees(cfg: Config, input: seq<Annotated>, natSchedule: seq<nat>)
    ensures multiset(FinalLines(RoutesOf(cfg), input, natSchedule)[1])
            == multiset(Apply(Pick(PathOf(cfg), Route(cfg), 1), input))
  {
    NatHostLine(RoutesOf(cfg), input, natSchedule);
    NatLanesPick(cfg, input, 1);
  }

  lemma Line2Agrees(cfg: Config, input: seq<Annotated>, natSchedule: seq<nat>)
    ensures multiset(FinalLines(RoutesOf(cfg), input, natSchedule)[2])
            == multiset(Apply(Pick(PathOf(cfg), Route(cfg), 2), input))
  {
    NatLanLine(RoutesOf(cfg), input, natSchedule);
    NatLanesPick(cfg, input, 2);
  }

  lemma Line3Agrees(cfg: Config, input: seq<Annotated>, natSchedule: seq<nat>)
    ensures multiset(FinalLines(RoutesOf(cfg), input, natSchedule)[3])
            == multiset(Apply(Pick(PathOf(cfg), Route(cfg), 3), input))
  {
    DirectLines(RoutesOf(cfg), input, natSchedule);
    LanHostPick(cfg, input);
  }

  lemma Line4Agrees(cfg: Config, input: seq<Annotated>, natSchedule: seq<nat>)
    ensures multiset(FinalLines(RoutesOf(cfg), input, natSchedule)[4])
            == multiset(Apply(Pick(PathOf(cfg), Route(cfg), 4), input))
  {
    DirectLines(RoutesOf(cfg), input, natSchedule);
    NatLanPick(cfg, input);
  }

  lemma Line5Agrees(cfg: Config, input: seq<Annotated>, natSchedule: seq<nat>)
    ensures multiset(FinalLines(RoutesOf(cfg), input, natSchedule)[5])
            == multiset(Apply(Pick(PathOf(cfg), Route(cfg), 5), input))
  {
    DirectLines(RoutesOf(cfg), input, natSchedule);
    NatHostPick(cfg, input);
  }

  /** The graph is the decision function: whatever the executor's choices at
      the two joins, the egress stream is a permutation of the decision
      function applied to the ingress stream, packet by packet. */
  lemma ForwardPermutesRoute(cfg: Config, input: seq<Annotated>, natSchedule: seq<nat>, finalSchedule: seq<nat>)
    ensures multiset(Forward(cfg, input, natSchedule, finalSchedule)) == multiset(Apply(Route(cfg), input))
  {
    var lines := FinalLines(RoutesOf(cfg), input, natSchedule);
    var picks := PickLines(PathOf(cfg), Route(cfg), 6, input);
    JoinPermutes(lines, finalSchedule);
    Line0Agrees(cfg, input, natSchedule);
    Line1Agrees(cfg, input, natSchedule);
    Line2Agrees(cfg, input, natSchedule);
    Line3Agrees(cfg, input, natSchedule);
    Line4Agrees(cfg, input, natSchedule);
    Line5Agrees(cfg, input, natSchedule);
    ConcatSix(lines, picks);
    PickLinesJoin(PathOf(cfg), Route(cfg), 6, input);
    forall j | 0 <= j < |input|
      ensures PickBelow(PathOf(cfg), Route(cfg), 6)(input[j]) == Route(cfg)(input[j])
    {
      PathCoversRoute(cfg, input[j]);
    }
    ApplyAgree(PickBelow(PathOf(cfg), Route(cfg), 6), Route(cfg), input);
  }

  /** No stage replicates: the link emits at most as many packets as it
      receives. */
  lemma ForwardBound(cfg: Config, input: seq<Annotated>, natSchedule: seq<nat>, finalSchedule: seq<nat>)
    ensures |Forward(cfg, input, natSchedule, finalSchedule)| <= |input|
  {
    ForwardPermutesRoute(cfg, input, natSchedule, finalSchedule);
    var out := Forward(cfg, input, natSchedule, finalSchedule);
    assert |out| == |multiset(out)|;
    assert |Apply(Route(cfg), input)| == |multiset(Apply(Route(cfg), input))|;
  }

  // ---------------------------------------------------------------------------
  // Consequences for the link's output
  // ---------------------------------------------------------------------------

  /** Every packet the link emits is what the decision function makes of
      some packet it received. */
  lemma ForwardMembers(cfg: Config, input: seq<Annotated>, natSchedule: seq<nat>, finalSchedule: seq<nat>, y: Annotated)
    requires y in Forward(cfg, input, natSchedule, finalSchedule)
    ensures exists k :: 0 <= k < |input| && RouteOf(cfg, input[k]) == Some(y)
  {
    ForwardPermutesRoute(cfg, input, natSchedule, finalSchedule);
    assert y in multiset(Forward(cfg, input, natSchedule, finalSchedule));
    ApplyMembers(Route(cfg), input, y);
  }

  /** Hence no packet leaves marked `Unmarked`, none that came in unmarked
      leaves at all, and none leaves by the interface it came in on with its
      addresses or payload changed. */
  lemma ForwardAnnotations(cfg: Config, input: seq<Annotated>, natSchedule: seq<nat>, finalSchedule: seq<nat>, y: Annotated)
    requires y in Forward(cfg, input, natSchedule, finalSchedule)
    ensures y.inbound != Unmarked && y.outbound != Unmarked
    ensures exists k :: 0 <= k < |input| && input[k].packet == y.packet
                        && input[k].inbound != Unmarked && input[k].inbound != y.outbound
  {
    ForwardMembers(cfg, input, natSchedule, finalSchedule, y);
    var k :| 0 <= k < |input| && RouteOf(cfg, input[k]) == Some(y);
    assert input[k].packet == y.packet;
  }

  /** When the decision function keeps at most one packet of the input, the
      link emits exactly that, whatever the executor does. */
  lemma ForwardAtMostOne(cfg: Config, input: seq<Annotated>, natSchedule: seq<nat>, finalSchedule: seq<nat>)
    requires |Apply(Route(cfg), input)| <= 1
    ensures Forward(cfg, input, natSchedule, finalSchedule) == Apply(Route(cfg), input)
  {
    ForwardPermutesRoute(cfg, input, natSchedule, finalSchedule);
    MultisetAtMostOne(Forward(cfg, input, natSchedule, finalSchedule), Apply(Route(cfg), input));
  }

  /** The four final-join lines that bypass the NAT join keep arrival order:
      whatever the executor's choices, the packets the link emits from each
      of them are, in order, the decision function's output for that line. */
  lemma DirectLinesKeepOrder(cfg: Config, input: seq<Annotated>, natSchedule: seq<nat>, finalSchedule: seq<nat>)
    ensures var m := Merge(FinalLines(RoutesOf(cfg), input, natSchedule), finalSchedule);
            && Project(m, 0) == Apply(Pick(PathOf(cfg), Route(cfg), 0), input)
            && Project(m, 3) == Apply(Pick(PathOf(cfg), Route(cfg), 3), input)
            && Project(m, 4) == Apply(Pick(PathOf(cfg), Route(cfg), 4), input)
            && Project(m, 5) == Apply(Pick(PathOf(cfg), Route(cfg), 5), input)
  {
    var lines := FinalLines(RoutesOf(cfg), input, natSchedule);
    MergeKeepsLineOrder(lines, finalSchedule);
    DirectLines(RoutesOf(cfg), input, natSchedule);
    HostLanPick(cfg, input);
    LanHostPick(cfg, input);
    NatLanPick(cfg, input);
    NatHostPick(cfg, input);
  }

  /** A LAN subnet that is exactly the router's LAN address as a /32 block
      replaces that address's table entry, so LAN traffic to the router is
      dropped rather than delivered to the Host. */
  lemma HostSizedSubnet(cfg: Config, a: Annotated)
    requires cfg.lanSubnet == HostBlock(cfg.lanIp)
    requires a.inbound == Interface.Lan && a.packet.dest == cfg.lanIp
    ensures RouteOf(cfg, a) == None
  {
    InHostBlock(cfg.lanIp, cfg.lanIp);
  }

  // ---------------------------------------------------------------------------
  // The scenarios of the link's unit tests
  // ---------------------------------------------------------------------------

  const TestWanIp: Addr := 0xC000_0201      // 192.0.2.1
  const TestOtherWanIp: Addr := 0xC000_0265   // 192.0.2.101
  const TestLanIp: Addr := 0x0A00_1543      // 10.0.21.67
  const TestOtherLanIp: Addr := 0x0A00_156F   // 10.0.21.111
  const TestLanSubnet: Cidr := Cidr(0x0A00_1540, 26)   // 10.0.21.64/26
  const TestConfig: Config := Config(TestWanIp, TestLanIp, TestLanSubnet)

  /** The tests' helper `test_handleipv4_link`: the builder calls in the tests' order, then
      `build_link`, with the executor's choices left open. */
  method RunTestLink(packets: seq<Annotated>, natSchedule: seq<nat>, finalSchedule: seq<nat>) returns (out: seq<Annotated>)
    ensures multiset(out) == multiset(Apply(Route(TestConfig), packets))
    ensures |Apply(Route(TestConfig), packets)| <= 1 ==> out == Apply(Route(TestConfig), packets)
  {
    var h0 := Ingressor(New(), packets).value;
    var h1 := WanIp(h0, TestWanIp).value;
    var h2 := LanIp(h1, TestLanIp).value;
    assert WellFormed(TestLanSubnet);
    var h3 := LanSubnet(h2, TestLanSubnet).value;
    var r := BuildLink(h3, natSchedule, finalSchedule);
    out := r.value;
    MultisetAtMostOneIf(out, Apply(Route(TestConfig), packets));
  }

  /** A packet as the tests make it: `Ipv4Packet::empty()`, whose addresses
      are zero, with a destination set, arriving on `inbound`. */
  function Incoming(inbound: Interface, dest: Addr): Annotated
  {
    Annotated(Packet(0, dest, []), inbound, Unmarked)
  }

  /** The packet as it leaves with the given annotations. */
  function Outgoing(dest: Addr, inbound: Interface, outbound: Interface): Annotated
  {
    Annotated(Packet(0, dest, []), inbound, outbound)
  }

  method DropInboundUnmarked(natSchedule: seq<nat>, finalSchedule: seq<nat>) returns (out: seq<Annotated>)
    ensures |out| == 1
    ensures forall y :: y in out ==> y.inbound != Unmarked
  {
    out := RunTestLink([Incoming(Host, 0), Incoming(Unmarked, 0)], natSchedule, finalSchedule);
    assert Apply(Route(TestConfig), [Incoming(Host, 0), Incoming(Unmarked, 0)]) == [Outgoing(0, Interface.Lan, Wan)];
  }

  method DropWanNotForMe(natSchedule: seq<nat>, finalSchedule: seq<nat>) returns (out: seq<Annotated>)
    ensures |out| == 1
    ensures forall y :: y in out ==> y.packet.dest == TestWanIp
  {
    out := RunTestLink([Incoming(Wan, TestWanIp), Incoming(Wan, TestOtherWanIp)], natSchedule, finalSchedule);
    assert RouteOf(TestConfig, Incoming(Wan, TestOtherWanIp)) == None;
    assert Apply(Route(TestConfig), [Incoming(Wan, TestWanIp), Incoming(Wan, TestOtherWanIp)])
           == [Outgoing(TestWanIp, Wan, Interface.Lan)];
  }

  method FromWanToMeGoesToLan(natSchedule: seq<nat>, finalSchedule: seq<nat>) returns (out: seq<Annotated>)
    ensures out == [Outgoing(TestWanIp, Wan, Interface.Lan)]
  {
    out := RunTestLink([Incoming(Wan, TestWanIp)], natSchedule, finalSchedule);
    assert Apply(Route(TestConfig), [Incoming(Wan, TestWanIp)]) == [Outgoing(TestWanIp, Wan, Interface.Lan)];
  }

  method FromLanToLanIsDropped(natSchedule: seq<nat>, finalSchedule: seq<nat>) returns (out: seq<Annotated>)
    ensures out == []
  {
    out := RunTestLink([Incoming(Interface.Lan, 0x0A00_1563)], natSchedule, finalSchedule);
    assert Apply(Route(TestConfig), [Incoming(Interface.Lan, 0x0A00_1563)]) == [];
  }

  method FromLanToMeGoesToHost(natSchedule: seq<nat>, finalSchedule: seq<nat>) returns (out: seq<Annotated>)
    ensures out == [Outgoing(TestLanIp, Interface.Lan, Host)]
  {
    out := RunTestLink([Incoming(Interface.Lan, TestLanIp)], natSchedule, finalSchedule);
    assert Apply(Route(TestConfig), [Incoming(Interface.Lan, TestLanIp)]) == [Outgoing(TestLanIp, Interface.Lan, Host)];
  }

  method FromLanToBroadcastGoesToHost(natSchedule: seq<nat>, finalSchedule: seq<nat>) returns (out: seq<Annotated>)
    ensures |out| == 2
    ensures forall y :: y in out ==> y.outbound == Host
  {
    var last := LastAddress(TestLanSubnet);
    assert last == 0x0A00_157F;
    out := RunTestLink([Incoming(Interface.Lan, LimitedBroadcast), Incoming(Interface.Lan, last)], natSchedule, finalSchedule);
    assert Apply(Route(TestConfig), [Incoming(Interface.Lan, LimitedBroadcast), Incoming(Interface.Lan, last)])
           == [Outgoing(LimitedBroadcast, Interface.Lan, Host), Outgoing(last, Interface.Lan, Host)];
    assert |out| == |multiset(out)|;
    forall y | y in out
      ensures y.outbound == Host
    {
      assert y in multiset(out);
    }
  }

  method FromLanToWanGoesToWan(natSchedule: seq<nat>, finalSchedule: seq<nat>) returns (out: seq<Annotated>)
    ensures out == [Outgoing(0xC000_0207, Interface.Lan, Wan)]
  {
    out := RunTestLink([Incoming(Interface.Lan, 0xC000_0207)], natSchedule, finalSchedule);
    assert Apply(Route(TestConfig), [Incoming(Interface.Lan, 0xC000_0207)]) == [Outgoing(0xC000_0207, Interface.Lan, Wan)];
  }

  /** The Host's packet leaves for the WAN re-annotated as from the LAN: its
      source (zero) is not the router's LAN address. */
  method FromHostToWanGoesToWan(natSchedule: seq<nat>, finalSchedule: seq<nat>) returns (out: seq<Annotated>)
    ensures out == [Outgoing(0xC000_0207, Interface.Lan, Wan)]
  {
    out := RunTestLink([Incoming(Host, 0xC000_0207)], natSchedule, finalSchedule);
    assert Apply(Route(TestConfig), [Incoming(Host, 0xC000_0207)]) == [Outgoing(0xC000_0207, Interface.Lan, Wan)];
  }

  method FromHostToLanGoesToLan(natSchedule: seq<nat>, finalSchedule: seq<nat>) returns (out: seq<Annotated>)
    ensures out == [Outgoing(TestOtherLanIp, Host, Interface.Lan)]
  {
    out := RunTestLink([Incoming(Host, TestOtherLanIp)], natSchedule, finalSchedule);
    assert Apply(Route(TestConfig), [Incoming(Host, TestOtherLanIp)]) == [Outgoing(TestOtherLanIp, Host, Interface.Lan)];
  }

  method FromHostToBroadcastGoesToLan(natSchedule: seq<nat>, finalSchedule: seq<nat>) returns (out: seq<Annotated>)
    ensures |out| == 2
    ensures forall y :: y in out ==> y.outbound == Interface.Lan
  {
    var last := LastAddress(TestLanSubnet);
    assert last == 0x0A00_157F;
    out := RunTestLink([Incoming(Host, LimitedBroadcast), Incoming(Host, last)], natSchedule, finalSchedule);
    assert Apply(Route(TestConfig), [Incoming(Host, LimitedBroadcast), Incoming(Host, last)])
           == [Outgoing(LimitedBroadcast, Host, Interface.Lan), Outgoing(last, Host, Interface.Lan)];
    assert |out| == |multiset(out)|;
    forall y | y in out
      ensures y.outbound == Interface.Lan
    {
      assert y in multiset(out);
    }
  }
}
