/**
 The compilation of the peer table into firewall rules, and the declarative policy it
 is meant to enforce.
 */
module Policy {
  import opened Wrappers
  import opened Firewall

  const HOME := "home"

  /** The validated helper configuration; `wellFormed` stands for its syntactic checks. */
  datatype Config = Config(name: string, network: int, bits: int, uplink: Iface, wellFormed: bool) {
    predicate Valid() {
      && wellFormed
      && IsPrivate(network)
      && bits == 24
      && network % 256 == 0
      && uplink != TUNNEL
    }

    /** The tunnel address of a host: the network with its last byte replaced. */
    function Address(host: int): int { network - network % 256 + host % 256 }

    function Subnet(): Block { Block(network, 256) }

    function HostBlock(host: int): Block { Block(Address(host), 1) }
  }

  /** The private IPv4 ranges of RFC 1918, section 3. */
  predicate IsPrivate(address: int) {
    || 0x0A00_0000 <= address < 0x0B00_0000
    || 0xAC10_0000 <= address < 0xAC20_0000
    || 0xC0A8_0000 <= address < 0xC0A9_0000
  }

  /** One record of the peer table. An unreadable management address is None. */
  datatype Peer = Peer(deviceId: string, publicKey: string, host: int, exitId: string,
                       service: bool, name: string, management: seq<Option<int>>) {
    /** Routed through the home service node rather than out of the uplink. */
    predicate UsesHome() { !service && exitId == HOME }

    predicate UsesUplink() { !service && exitId != HOME }
  }

  // ---- identities ----

  predicate IsHexDigit(ch: char) { '0' <= ch <= '9' || 'a' <= ch <= 'f' }

  /** A device identity: 32 bytes in lower-case hexadecimal. */
  predicate ValidId(id: string) {
    |id| == 64 && forall i :: 0 <= i < 64 ==> IsHexDigit(id[i])
  }

  const BASE64 := "ABCDEFGHIJKLMNOPQRSTUVWXYZabcdefghijklmnopqrstuvwxyz0123456789+/"

  /** A nonzero 32-byte key in canonical base64: the last digit before the padding has two unused bits, which are zero. */
  predicate ValidKey(key: string) {
    && |key| == 44 && key[43] == '='
    && (forall i :: 0 <= i < 43 ==> key[i] in BASE64)
    && (exists v :: 0 <= v < 16 && key[42] == BASE64[4 * v])
    && (exists i :: 0 <= i < 43 && key[i] != 'A')
  }

  predicate UsableHost(host: int) { 2 <= host <= 254 }

  // ---- rules ----

  function Filter(tag: Tag, inIf: Iface, outIf: Iface, src: AddressMatch, dst: AddressMatch,
                  established: bool, target: Target): Rule
  {
    Managed(Forward4, tag, Some(inIf), Some(outIf), src, dst, established, None, target)
  }

  function DropIn(chain: ChainId): Rule { Managed(chain, CoreTag, Some(TUNNEL), None, Any, Any, false, None, Drop) }

  function DropOut(chain: ChainId): Rule { Managed(chain, CoreTag, None, Some(TUNNEL), Any, Any, false, None, Drop) }

  function UplinkReplies(c: Config): Rule {
    Filter(CoreTag, c.uplink, TUNNEL, Any, Within(c.Subnet()), true, Accept)
  }

  function Nat(c: Config): Rule {
    Managed(Postrouting4, CoreTag, None, Some(c.uplink), Within(c.Subnet()), Any, false, None, Masquerade)
  }

  /** Drops come first because each rule is inserted above the one before it. */
  function CoreRules(c: Config): seq<Rule> {
    [DropIn(Forward4), DropOut(Forward4), UplinkReplies(c), Nat(c), DropIn(Forward6), DropOut(Forward6)]
  }

  /** How the core rules stand in the IPv4 forward chain once inserted. */
  function CoreForward(c: Config): seq<Rule> { [UplinkReplies(c), DropOut(Forward4), DropIn(Forward4)] }

  function UplinkAccept(c: Config, host: int): Rule {
    Filter(PeerTag(host), TUNNEL, c.uplink, Within(c.HostBlock(host)), Any, false, Accept)
  }

  function UplinkGuard(c: Config, host: int): Rule {
    Filter(PeerTag(host), TUNNEL, c.uplink, Within(c.HostBlock(host)), Any, false, Drop)
  }

  function HomeReplies(c: Config, host: int): Rule {
    Filter(PeerTag(host), TUNNEL, TUNNEL, Outside(c.Subnet()), Within(c.HostBlock(host)), true, Accept)
  }

  function HomeOut(c: Config, host: int): Rule {
    Filter(PeerTag(host), TUNNEL, TUNNEL, Within(c.HostBlock(host)), Outside(c.Subnet()), false, Accept)
  }

  function HomeRules(c: Config, host: int): seq<Rule> {
    [UplinkGuard(c, host), HomeReplies(c, host), HomeOut(c, host)]
  }

  function PeerRules(c: Config, p: Peer): seq<Rule> {
    if p.service then []
    else if p.exitId != HOME then [UplinkAccept(c, p.host)]
    else HomeRules(c, p.host)
  }

  /** The rules the helper may ever write for a usable host. */
  ghost predicate IsHostRule(c: Config, r: Rule) {
    exists h :: UsableHost(h) && (r == UplinkAccept(c, h) || r in HomeRules(c, h))
  }

  // ---- declarative policy ----

  ghost predicate DistinctHosts(peers: set<Peer>) {
    forall p, q :: p in peers && q in peers && p != q ==> p.host != q.host
  }

  /** What the tunnel may carry, said in terms of devices and networks only. */
  ghost predicate Permitted(c: Config, peers: set<Peer>, pkt: Packet) {
    if pkt.inIf == TUNNEL && pkt.outIf == c.uplink then
      exists p :: p in peers && p.UsesUplink() && pkt.src == c.Address(p.host)
    else if pkt.inIf == TUNNEL && pkt.outIf == TUNNEL then
      exists p :: p in peers && p.UsesHome() &&
        ((pkt.src == c.Address(p.host) && !c.Subnet().Has(pkt.dst)) ||
         (pkt.dst == c.Address(p.host) && !c.Subnet().Has(pkt.src) && pkt.established))
    else
      pkt.inIf == c.uplink && pkt.established && c.Subnet().Has(pkt.dst)
  }

  ghost predicate Compiled(c: Config, peers: set<Peer>, upper: seq<Rule>) {
    && (forall r :: r in upper ==> exists p :: p in peers && r in PeerRules(c, p))
    && (forall p, r :: p in peers && r in PeerRules(c, p) ==> r in upper)
  }

  lemma AddressesDiffer(c: Config, g: int, h: int)
    requires UsableHost(g) && UsableHost(h)
    ensures c.Address(g) == c.Address(h) <==> g == h
    ensures c.network % 256 == 0 ==> c.Subnet().Has(c.Address(h)) && c.network + 1 < c.Address(h) < c.network + 255
    ensures c.network % 256 == 0 ==> forall a: int :: c.Subnet().Has(a) <==> a / 256 == c.network / 256
  {
  }

  lemma CoreVerdict(c: Config, rest: seq<Rule>, pkt: Packet, sem: Semantics)
    requires c.Valid()
    ensures FirstMatch(CoreForward(c) + rest, pkt, sem) ==
      if !pkt.TouchesTunnel() then FirstMatch(rest, pkt, sem)
      else if pkt.outIf == TUNNEL && pkt.inIf == c.uplink && pkt.established && c.Subnet().Has(pkt.dst) then Some(Accept)
      else Some(Drop)
  {
    var below := [DropIn(Forward4)] + rest;
    var middle := [DropOut(Forward4)] + below;
    assert below[1..] == rest && middle[1..] == below;
    assert CoreForward(c) + rest == [UplinkReplies(c)] + middle;
    assert ([UplinkReplies(c)] + middle)[1..] == middle;
    assert FirstMatch(below, pkt, sem) == if pkt.inIf == TUNNEL then Some(Drop) else FirstMatch(rest, pkt, sem);
    assert FirstMatch(middle, pkt, sem) == if pkt.outIf == TUNNEL then Some(Drop) else FirstMatch(below, pkt, sem);
  }

  /** On their way out of the uplink tunnel addresses, and no others, get the server's own. */
  lemma MasqueradesTunnelSources(c: Config, rest: seq<Rule>, pkt: Packet, sem: Semantics)
    requires c.Valid()
    ensures FirstMatch([Nat(c)] + rest, pkt, sem) ==
      if pkt.outIf == c.uplink && pkt.src / 256 == c.network / 256 then Some(Masquerade) else FirstMatch(rest, pkt, sem)
  {
    assert ([Nat(c)] + rest)[1..] == rest;
  }

  /** Nothing of IPv6 passes the tunnel. */
  lemma DropsIPv6(rest: seq<Rule>, pkt: Packet, sem: Semantics)
    ensures FirstMatch([DropOut(Forward6)] + ([DropIn(Forward6)] + rest), pkt, sem) ==
      if pkt.inIf == TUNNEL || pkt.outIf == TUNNEL then Some(Drop) else FirstMatch(rest, pkt, sem)
  {
    var below := [DropIn(Forward6)] + rest;
    assert below[1..] == rest && ([DropOut(Forward6)] + below)[1..] == below;
    assert FirstMatch(below, pkt, sem) == if pkt.inIf == TUNNEL then Some(Drop) else FirstMatch(rest, pkt, sem);
  }

  /** Who decides a packet among the rules of one peer. */
  lemma PeerDecision(c: Config, p: Peer, r: Rule, pkt: Packet, sem: Semantics)
    requires c.Valid() && UsableHost(p.host) && r in PeerRules(c, p)
    ensures Decision(r, pkt, sem) != None ==> pkt.inIf == TUNNEL && (pkt.outIf == c.uplink || pkt.outIf == TUNNEL)
    ensures Decision(r, pkt, sem) == Some(Drop) ==>
      p.UsesHome() && pkt.outIf == c.uplink && pkt.src == c.Address(p.host)
    ensures Decision(r, pkt, sem) == Some(Accept) ==> Permitted(c, {p}, pkt)
    ensures Decision(r, pkt, sem) != Some(Masquerade)
  {
  }

  lemma PermittedHasRule(c: Config, p: Peer, pkt: Packet, sem: Semantics)
    requires c.Valid() && pkt.inIf == TUNNEL && Permitted(c, {p}, pkt)
    ensures exists r :: r in PeerRules(c, p) && Decision(r, pkt, sem) == Some(Accept)
  {
    if pkt.outIf == c.uplink {
      assert UplinkAccept(c, p.host) in PeerRules(c, p);
    } else if pkt.src == c.Address(p.host) && !c.Subnet().Has(pkt.dst) {
      assert HomeOut(c, p.host) in PeerRules(c, p);
      assert Decision(HomeOut(c, p.host), pkt, sem) == Some(Accept);
    } else {
      assert HomeReplies(c, p.host) in PeerRules(c, p);
      assert Decision(HomeReplies(c, p.host), pkt, sem) == Some(Accept);
    }
  }

  /**
   The compiled chain enforces the policy: whatever order the peer rules were inserted
   in and whatever foreign rules lie below, a packet that touches the tunnel is accepted
   exactly when the policy permits it, and any other packet falls through.
   */
  lemma CompiledChainIsPolicy(c: Config, peers: set<Peer>, upper: seq<Rule>, rest: seq<Rule>,
                              pkt: Packet, sem: Semantics)
    requires c.Valid() && DistinctHosts(peers)
    requires forall p :: p in peers ==> UsableHost(p.host)
    requires Compiled(c, peers, upper)
    ensures FirstMatch(upper + (CoreForward(c) + rest), pkt, sem) ==
      if !pkt.TouchesTunnel() then FirstMatch(rest, pkt, sem)
      else if Permitted(c, peers, pkt) then Some(Accept)
      else Some(Drop)
  {
    var lower := CoreForward(c) + rest;
    CoreVerdict(c, rest, pkt, sem);
    forall r | r in upper
      ensures Decision(r, pkt, sem) == None ||
              (pkt.inIf == TUNNEL && Decision(r, pkt, sem) == Some(if Permitted(c, peers, pkt) then Accept else Drop))
    {
      var p :| p in peers && r in PeerRules(c, p);
      PeerDecision(c, p, r, pkt, sem);
      if Decision(r, pkt, sem) == Some(Drop) && Permitted(c, peers, pkt) {
        var q :| q in peers && q.UsesUplink() && pkt.src == c.Address(q.host);
        AddressesDiffer(c, p.host, q.host);
        assert false;
      }
    }
    FirstMatchAgrees(upper, lower, pkt, sem, if Permitted(c, peers, pkt) then Accept else Drop);
    if pkt.inIf == TUNNEL && Permitted(c, peers, pkt) {
      if pkt.outIf == c.uplink {
        var p :| p in peers && p.UsesUplink() && pkt.src == c.Address(p.host);
        assert p in {p};
        PermittedHasRule(c, p, pkt, sem);
      } else {
        var p :| p in peers && p.UsesHome() &&
          ((pkt.src == c.Address(p.host) && !c.Subnet().Has(pkt.dst)) ||
           (pkt.dst == c.Address(p.host) && !c.Subnet().Has(pkt.src) && pkt.established));
        assert p in {p};
        PermittedHasRule(c, p, pkt, sem);
      }
    }
  }

  /** Devices are isolated: nothing passes between two addresses of the tunnel network. */
  lemma DevicesAreIsolated(c: Config, peers: set<Peer>, upper: seq<Rule>, rest: seq<Rule>,
                           pkt: Packet, sem: Semantics)
    requires c.Valid() && DistinctHosts(peers)
    requires forall p :: p in peers ==> UsableHost(p.host)
    requires Compiled(c, peers, upper)
    requires pkt.inIf == TUNNEL && c.Subnet().Has(pkt.src) && c.Subnet().Has(pkt.dst)
    requires pkt.outIf == TUNNEL
    ensures FirstMatch(upper + (CoreForward(c) + rest), pkt, sem) == Some(Drop)
  {
    CompiledChainIsPolicy(c, peers, upper, rest, pkt, sem);
    forall p | p in peers && p.UsesHome()
      ensures c.Subnet().Has(c.Address(p.host))
    {
      AddressesDiffer(c, p.host, p.host);
    }
  }

  // ---- the uplink is closed to a home-selected device ----

  /** A packet from the tunnel address of `host`, on its way out of the uplink. */
  predicate FromHostToUplink(c: Config, host: int, pkt: Packet) {
    pkt.inIf == TUNNEL && pkt.outIf == c.uplink && pkt.src == c.Address(host)
  }

  lemma UplinkDecision(c: Config, host: int, r: Rule, pkt: Packet, sem: Semantics)
    requires c.Valid() && UsableHost(host) && IsHostRule(c, r) && FromHostToUplink(c, host, pkt)
    ensures Decision(r, pkt, sem) == if r == UplinkAccept(c, host) then Some(Accept)
                                     else if r == UplinkGuard(c, host) then Some(Drop) else None
  {
    var h :| UsableHost(h) && (r == UplinkAccept(c, h) || r in HomeRules(c, h));
    AddressesDiffer(c, h, host);
  }

  /** A stray accept of `host` stands above its guard, or there is no guard at all. */
  ghost predicate Exposed(c: Config, host: int, upper: seq<Rule>) {
    exists i :: 0 <= i < |upper| && upper[i] == UplinkAccept(c, host) && UplinkGuard(c, host) !in upper[..i]
  }

  /** Exactly the exposed hosts reach the uplink, over every order, duplication and remainder of rules. */
  lemma {:induction false} UplinkOpenIffExposed(c: Config, host: int, upper: seq<Rule>, rest: seq<Rule>,
                                                pkt: Packet, sem: Semantics)
    requires c.Valid() && UsableHost(host) && FromHostToUplink(c, host, pkt)
    requires forall r :: r in upper ==> IsHostRule(c, r)
    ensures FirstMatch(upper + (CoreForward(c) + rest), pkt, sem) ==
            Some(if Exposed(c, host, upper) then Accept else Drop)
  {
    var lower := CoreForward(c) + rest;
    if upper == [] {
      assert upper + lower == lower;
      CoreVerdict(c, rest, pkt, sem);
    } else {
      var tail := upper[1..];
      assert (upper + lower)[1..] == tail + lower;
      UplinkDecision(c, host, upper[0], pkt, sem);
      UplinkOpenIffExposed(c, host, tail, rest, pkt, sem);
      if upper[0] == UplinkAccept(c, host) {
        assert UplinkGuard(c, host) !in upper[..0];
      } else {
        ExposedTail(c, host, upper);
      }
    }
  }

  lemma ExposedTail(c: Config, host: int, upper: seq<Rule>)
    requires upper != [] && upper[0] != UplinkAccept(c, host)
    ensures Exposed(c, host, upper) <==> upper[0] != UplinkGuard(c, host) && Exposed(c, host, upper[1..])
  {
    var tail := upper[1..];
    forall i | 0 < i < |upper| ensures upper[..i] == [upper[0]] + tail[..i - 1] {}
    if Exposed(c, host, upper) {
      var i :| 0 <= i < |upper| && upper[i] == UplinkAccept(c, host) && UplinkGuard(c, host) !in upper[..i];
      assert tail[i - 1] == UplinkAccept(c, host);
      assert upper[0] in upper[..i];
    }
    if upper[0] != UplinkGuard(c, host) && Exposed(c, host, tail) {
      var i :| 0 <= i < |tail| && tail[i] == UplinkAccept(c, host) && UplinkGuard(c, host) !in tail[..i];
      assert upper[..i + 1] == [upper[0]] + tail[..i];
      assert upper[i + 1] == UplinkAccept(c, host);
    }
  }
}
