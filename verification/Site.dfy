/**
 The home service node's side: a second chain compiled by the same pass, under a tag of its
 own. The machine here is the node's, and its link is the site tunnel.
 */
module Site {
  import opened Wrappers
  import opened Firewall
  import opened Policy
  import opened Kernel
  import opened Netfilter
  import opened LinuxBackend
  import opened Routes

  const SITE: Iface := "epsite0"
  const SHELL_PORT: nat := 22

  /** `profileOk` stands for the profile's constants and the syntax of its keys. */
  datatype SiteConfig = SiteConfig(net: Config, address: int, profileOk: bool) {
    predicate Valid() {
      net.Valid() && net.uplink != SITE && profileOk && net.Subnet().Has(address) && UsableHost(address % 256)
    }
  }

  function SiteFilter(inIf: Option<Iface>, outIf: Option<Iface>, src: AddressMatch, dst: AddressMatch,
                      established: bool, target: Target): Rule
  {
    Managed(Forward4, SiteTag, inIf, outIf, src, dst, established, None, target)
  }

  function SiteDropIn(): Rule { SiteFilter(Some(SITE), None, Any, Any, false, Drop) }

  function SiteDropOut(): Rule { SiteFilter(None, Some(SITE), Any, Any, false, Drop) }

  function SiteReplies(c: SiteConfig): Rule {
    SiteFilter(Some(c.net.uplink), Some(SITE), Any, Within(c.net.Subnet()), true, Accept)
  }

  function SiteOut(c: SiteConfig): Rule {
    SiteFilter(Some(SITE), Some(c.net.uplink), Within(c.net.Subnet()), Outside(c.net.Subnet()), false, Accept)
  }

  function SiteNat(c: SiteConfig): Rule {
    Managed(Postrouting4, SiteTag, None, Some(c.net.uplink), Within(c.net.Subnet()), Any, false, None, Masquerade)
  }

  function SiteShell(c: SiteConfig): Rule {
    Managed(Input4, SiteTag, Some(SITE), None, Within(c.net.Subnet()), Any, false, Some(SHELL_PORT), Accept)
  }

  function SiteRules(c: SiteConfig): seq<Rule> {
    [SiteDropIn(), SiteDropOut(), SiteReplies(c), SiteOut(c), SiteNat(c), SiteShell(c)]
  }

  /** How the site rules stand in the forward chain once inserted. */
  function SiteForward(c: SiteConfig): seq<Rule> { [SiteOut(c), SiteReplies(c), SiteDropOut(), SiteDropIn()] }

  predicate IsSiteTag(tag: Tag) { tag == SiteTag }

  function SweptSite(t: Tables): Tables {
    var test := (tag: Tag) => IsSiteTag(tag);
    Tables(Untagged(t.forward4, test), Untagged(t.postrouting4, test), t.forward6, Untagged(t.input4, test))
  }

  /** The site carries tunnel addresses out to the home network and its replies back, nothing else. */
  predicate SitePermitted(c: SiteConfig, pkt: Packet) {
    if pkt.inIf == SITE then pkt.outIf == c.net.uplink && c.net.Subnet().Has(pkt.src) && !c.net.Subnet().Has(pkt.dst)
    else pkt.inIf == c.net.uplink && pkt.established && c.net.Subnet().Has(pkt.dst)
  }

  /** The site chain, over any foreign rules, accepts what the site permits and drops the rest of its traffic. */
  lemma SiteChainIsPolicy(c: SiteConfig, rest: seq<Rule>, pkt: Packet, sem: Semantics)
    requires c.Valid()
    ensures FirstMatch(SiteForward(c) + rest, pkt, sem) ==
      if pkt.inIf != SITE && pkt.outIf != SITE then FirstMatch(rest, pkt, sem)
      else if SitePermitted(c, pkt) then Some(Accept)
      else Some(Drop)
  {
    var in0 := [SiteDropIn()] + rest;
    var out0 := [SiteDropOut()] + in0;
    var replies := [SiteReplies(c)] + out0;
    assert SiteForward(c) + rest == [SiteOut(c)] + replies;
    assert in0[1..] == rest && out0[1..] == in0 && replies[1..] == out0 && ([SiteOut(c)] + replies)[1..] == replies;
    assert FirstMatch(in0, pkt, sem) == if pkt.inIf == SITE then Some(Drop) else FirstMatch(rest, pkt, sem);
    assert FirstMatch(out0, pkt, sem) == if pkt.outIf == SITE then Some(Drop) else FirstMatch(in0, pkt, sem);
  }

  /** The shell of the node is open to the tunnel network. */
  predicate ShellPermitted(c: SiteConfig, pkt: Packet) {
    pkt.inIf == SITE && c.net.Subnet().Has(pkt.src) && pkt.port == Some(SHELL_PORT)
  }

  lemma ShellRuleDecides(c: SiteConfig, rest: seq<Rule>, pkt: Packet, sem: Semantics)
    ensures FirstMatch([SiteShell(c)] + rest, pkt, sem) ==
            if ShellPermitted(c, pkt) then Some(Accept) else FirstMatch(rest, pkt, sem)
  {
    assert ([SiteShell(c)] + rest)[1..] == rest;
  }

  lemma NatRuleDecides(c: SiteConfig, rest: seq<Rule>, pkt: Packet, sem: Semantics)
    requires c.Valid()
    ensures FirstMatch([SiteNat(c)] + rest, pkt, sem) ==
            if pkt.outIf == c.net.uplink && pkt.src / 256 == c.net.network / 256 then Some(Masquerade) else FirstMatch(rest, pkt, sem)
  {
    assert ([SiteNat(c)] + rest)[1..] == rest;
  }

  lemma SweptSiteLeavesV6(t: Tables)
    ensures SweptSite(t).forward6 == t.forward6
  {
  }

  lemma SiteRulesDistinct(c: SiteConfig)
    requires c.Valid()
    ensures NoDuplicates(SiteRules(c)) && forall r :: r in SiteRules(c) ==> r.tag == SiteTag && r.chain != Forward6
  {
  }

  lemma SiteInserted(c: SiteConfig, t: Tables)
    requires c.Valid()
    ensures InsertAll(t, SiteRules(c)) == Tables(SiteForward(c) + t.forward4, [SiteNat(c)] + t.postrouting4, t.forward6, [SiteShell(c)] + t.input4)
  {
    hide InsertAll;
    var r2 := [SiteDropIn(), SiteDropOut()];
    var r3 := r2 + [SiteReplies(c)];
    var r4 := r3 + [SiteOut(c)];
    InsertTwo(t, SiteDropIn(), SiteDropOut());
    InsertOneMore(t, r2, SiteReplies(c));
    InsertOneMore(t, r3, SiteOut(c));
    InsertOneMore(t, r4, SiteNat(c));
    InsertOneMore(t, r4 + [SiteNat(c)], SiteShell(c));
    assert SiteRules(c) == r4 + [SiteNat(c)] + [SiteShell(c)];
    assert [SiteOut(c)] + ([SiteReplies(c)] + ([SiteDropOut()] + ([SiteDropIn()] + t.forward4))) == SiteForward(c) + t.forward4;
  }

  lemma SweptHasNoSiteRule(t: Tables)
    ensures forall r: Rule :: r.chain != Forward6 && SweptSite(t).Contains(r) ==> r.tag != SiteTag
  {
    var test := (tag: Tag) => IsSiteTag(tag);
    UntaggedMembers(t.forward4, test);
    UntaggedMembers(t.postrouting4, test);
    UntaggedMembers(t.input4, test);
  }

  /** Sweeping undoes inserting: whatever site rules were put in, the tables come back. */
  lemma {:induction false} SweepUndoesInsert(t: Tables, rules: seq<Rule>)
    requires forall r :: r in rules ==> r.tag == SiteTag && r.chain != Forward6
    ensures SweptSite(InsertAll(t, rules)) == SweptSite(t)
  {
    if rules != [] {
      var n := |rules| - 1;
      SweepUndoesInsert(t, rules[..n]);
      SweepUndoesOne(InsertAll(t, rules[..n]), rules[n]);
    }
  }

  lemma SweepUndoesOne(t: Tables, r: Rule)
    requires r.tag == SiteTag && r.chain != Forward6
    ensures SweptSite(t.Insert(r)) == SweptSite(t)
  {
    var test := (tag: Tag) => IsSiteTag(tag);
    UntaggedConcat([r], t.Get(r.chain), test);
    UntaggedAll([r], test);
    assert [] + Untagged(t.Get(r.chain), test) == Untagged(t.Get(r.chain), test);
  }

  /** The interface, then the three chains; another application's interface is left alone. */
  method SiteDown(m: Machine) returns (ok: bool)
    requires m.AlwaysSafe() && m.state.wg == map[]
    modifies m
    ensures m.AlwaysSafe() && Quiet(m) && m.state.wg == map[]
    ensures ok ==> m.state.link == Absent && m.state.tables == SweptSite(old(m.state).tables)
    ensures old(m.state).link == Unowned ==> !ok && m.state == old(m.state)
    ensures !ok ==> old(m.state).link == Unowned || m.faults > old(m.faults)
    ensures old(m.state).link != Unowned ==> m.state.link == Absent || m.deleteFaults > old(m.deleteFaults)
    ensures m.state.policy == old(m.state).policy && m.state.forwarding == old(m.state).forwarding
    ensures m.state.unreachable == old(m.state).unreachable && m.state.foreignRoutes == old(m.state).foreignRoutes
  {
    hide Untagged, SweptTo, AllSafe;
    if m.state.link == Unowned { return false; }
    if m.state.link == Owned {
      ok := RunIdle(m, LinkDelete);
      if !ok { return; }
    }
    ok := SweepSite(m);
  }

  method SweepSite(m: Machine) returns (ok: bool)
    requires m.AlwaysSafe() && m.state.wg == map[]
    modifies m
    ensures m.AlwaysSafe() && Quiet(m)
    ensures m.state == old(m.state).(tables := m.state.tables)
    ensures ok ==> m.state.tables == SweptSite(old(m.state).tables)
    ensures !ok ==> m.faults > old(m.faults)
  {
    hide Untagged, SweptTo, AllSafe;
    var test: TagTest := (tag: Tag) => IsSiteTag(tag);
    var n;
    ok, n := RemoveTaggedRules(m, Forward4, test);
    if !ok { return; }
    ok, n := RemoveTaggedRules(m, Input4, test);
    if !ok { return; }
    ok, n := RemoveTaggedRules(m, Postrouting4, test);
  }

  /** Address, and keys with the core as the one peer. */
  method AddressSite(m: Machine, c: SiteConfig) returns (ok: bool)
    requires m.AlwaysSafe() && m.state.link == Owned && m.state.wg == map[]
    modifies m
    ensures m.AlwaysSafe() && Quiet(m) && m.state == old(m.state).(settings := m.state.settings)
    ensures ok ==> m.state.settings == old(m.state).settings + {Address4(c.address, 32), Key(Some(c.net.Subnet()))}
    ensures !ok ==> m.faults > old(m.faults)
  {
    hide AllSafe, Apply, Enabled;
    ok := Adjust(m, Configure(Address4(c.address, 32)));
    if ok { ok := Adjust(m, WgSetConf(Some(c.net.Subnet()))); }
  }

  /** Link, route and forwarding after that. */
  method ConfigureSite(m: Machine, c: SiteConfig) returns (ok: bool)
    requires m.AlwaysSafe() && m.state.link == Owned && m.state.wg == map[]
    modifies m
    ensures m.AlwaysSafe() && Quiet(m) && m.state.wg == map[]
    ensures m.state == old(m.state).(settings := m.state.settings, forwarding := m.state.forwarding)
    ensures ok ==> m.state.settings == old(m.state).settings + SiteSettings(c) && m.state.forwarding
    ensures !ok ==> m.faults > old(m.faults)
  {
    hide AllSafe, Apply, Enabled;
    ok := AddressSite(m, c);
    if !ok { return; }
    ok := Adjust(m, Configure(Running));
    if !ok { return; }
    ok := Adjust(m, Configure(Route(c.net.Subnet())));
    if !ok { return; }
    ok := Adjust(m, Forward);
  }

  /** The site tunnel carries its address, the core as its one peer for the subnet, and the route to it. */
  function SiteSettings(c: SiteConfig): set<Setting> {
    {Address4(c.address, 32), Key(Some(c.net.Subnet())), Running, Route(c.net.Subnet())}
  }

  /** Create the interface and make it ours. */
  method CreateSite(m: Machine) returns (ok: bool)
    requires m.AlwaysSafe() && m.state.link == Absent && m.state.wg == map[]
    modifies m
    ensures m.AlwaysSafe() && Quiet(m) && m.state.wg == map[] && m.state.tables == old(m.state).tables
    ensures ok ==> m.state == old(m.state).(link := Owned, settings := {})
    ensures !ok ==> m.faults > old(m.faults)
    ensures !ok ==> m.state.link == Absent || m.deleteFaults > old(m.deleteFaults)
  {
    ok := RunIdle(m, LinkAdd);
    if !ok { return; }
    ok := RunIdle(m, LinkAlias);
    if !ok {
      var _ := RunIdle(m, LinkDelete);
    }
  }

  /** Lay the rules over swept chains, with the interface up. */
  method LaySite(m: Machine, c: SiteConfig, ghost found: Tables) returns (ok: bool)
    requires m.AlwaysSafe() && c.Valid() && m.state.link == Owned && m.state.wg == map[] && m.state.settings == {}
    requires m.state.tables == SweptSite(found)
    modifies m
    ensures m.AlwaysSafe() && Quiet(m) && m.state.wg == map[] && m.state.link == Owned
    ensures ok ==> m.state.settings == SiteSettings(c) && m.state.forwarding
    ensures ok ==> m.state.tables == InsertAll(SweptSite(found), SiteRules(c))
    ensures SweptSite(m.state.tables) == SweptSite(found)
    ensures !ok ==> m.faults > old(m.faults)
  {
    hide Untagged, AllSafe, Applied, NeverInvents, Truthful, InsertAll, SiteRules, SweptSite, SiteSettings;
    SweptSiteTwice(found);
    ok := ConfigureSite(m, c);
    if !ok { return; }
    ghost var answers;
    ok, answers := ApplyRules(m, SiteRules(c), false);
    SiteRulesDistinct(c);
    SiteInsertsAreSwept(SweptSite(found), SiteRules(c)[..|answers|], answers);
    if ok {
      assert SiteRules(c)[..|answers|] == SiteRules(c);
      SiteFresh(c, found, answers);
    }
  }

  /** Create the interface over swept chains and lay the rules; once it was `raised`, a failure takes everything down again. */
  method RaiseSite(m: Machine, c: SiteConfig, ghost found: Tables) returns (ok: bool, ghost raised: bool)
    requires m.AlwaysSafe() && c.Valid() && m.state.link == Absent && m.state.wg == map[]
    requires m.state.tables == SweptSite(found)
    modifies m
    ensures m.AlwaysSafe() && Quiet(m) && m.state.wg == map[]
    ensures ok ==> raised && m.state.link == Owned && m.state.settings == SiteSettings(c) && m.state.forwarding
    ensures ok ==> m.state.tables == InsertAll(SweptSite(found), SiteRules(c))
    ensures !ok ==> m.faults > old(m.faults)
    ensures !ok ==> m.state.link == Absent || m.deleteFaults > old(m.deleteFaults)
    ensures !ok && raised ==> (m.state.link == Absent && m.state.tables == SweptSite(found)) || m.faults > old(m.faults) + 1
  {
    hide AllSafe, InsertAll, SiteRules, SweptSite, SiteSettings;
    raised := false;
    ok := CreateSite(m);
    if !ok { return; }
    raised := true;
    ok := LaySite(m, c, found);
    if !ok {
      var _ := SiteDown(m);
    }
  }

  /**
   Bring the site up. Success leaves its rules above whatever was there before, and nothing
   else; with no fault only a bad profile, a foreign interface or a route conflict prevents it.
   Once the interface was `raised` a failure takes it down with all its rules.
   */
  method SiteUp(m: Machine, c: SiteConfig, routes: Listing) returns (ok: bool, ghost raised: bool)
    requires m.AlwaysSafe() && m.state.wg == map[] && WellFormed(routes)
    modifies m
    ensures m.AlwaysSafe() && Quiet(m) && m.state.wg == map[]
    ensures ok ==> c.Valid() && m.state.link == Owned && m.state.settings == SiteSettings(c) && m.state.forwarding
    ensures ok ==> raised && m.state.tables == InsertAll(SweptSite(old(m.state).tables), SiteRules(c))
    ensures c.Valid() && ok ==> RouteFree(c, routes)
    ensures !ok && c.Valid() && m.faults == old(m.faults) ==> old(m.state).link == Unowned || !RouteFree(c, routes)
    ensures !ok && raised ==>
              (m.state.link == Absent && m.state.tables == SweptSite(old(m.state).tables)) || m.faults > old(m.faults) + 1
    ensures !c.Valid() || old(m.state).link == Unowned ==> !ok && m.state == old(m.state)
    ensures !ok && c.Valid() && old(m.state).link != Unowned ==> m.state.link == Absent || m.deleteFaults > old(m.deleteFaults)
  {
    hide AllSafe, InsertAll, Pow2, Conflicts, SiteRules, SweptSite, SiteSettings;
    raised := false;
    if !c.Valid() { return false, false; }
    ok := SiteDown(m);
    if !ok { return; }
    var listing := m.Read();
    if listing.None? { return false, false; }
    NetworksAreValid(c.net);
    ok := CheckRoutes(TunnelNetwork(c.net), routes);
    if !ok { return; }
    ok, raised := RaiseSite(m, c, old(m.state).tables);
  }

  lemma {:induction false} SiteInsertsAreSwept(t: Tables, rules: seq<Rule>, answers: seq<bool>)
    requires |answers| == |rules|
    requires forall r :: r in rules ==> r.tag == SiteTag && r.chain != Forward6
    ensures SweptSite(Applied(t, rules, false, answers)) == SweptSite(t)
  {
    hide SweptSite;
    if rules != [] {
      var n := |rules| - 1;
      SiteInsertsAreSwept(t, rules[..n], answers[..n]);
      SweepUndoesOne(Applied(t, rules[..n], false, answers[..n]), rules[n]);
    }
  }

  ghost predicate RouteFree(c: SiteConfig, routes: Listing)
    requires c.Valid() && WellFormed(routes)
  {
    NetworksAreValid(c.net);
    NoConflict(TunnelNetwork(c.net), routes)
  }

  /** Over swept chains even a wrong check cannot misplace a rule. */
  lemma SiteFresh(c: SiteConfig, t: Tables, answers: seq<bool>)
    requires c.Valid() && |answers| == |SiteRules(c)| && NeverInvents(SweptSite(t), SiteRules(c), false, answers)
    ensures Applied(SweptSite(t), SiteRules(c), false, answers) == InsertAll(SweptSite(t), SiteRules(c))
  {
    SiteRulesDistinct(c);
    SweptHasNoSiteRule(t);
    FreshInserts(SweptSite(t), SiteRules(c), answers);
  }

  /** What a node that came up forwards, and what remains of it once it is down again. */
  lemma SiteLifecycle(c: SiteConfig, t: Tables, pkt: Packet, sem: Semantics)
    requires c.Valid()
    ensures var up := InsertAll(SweptSite(t), SiteRules(c));
      && FirstMatch(up.forward4, pkt, sem) ==
           (if pkt.inIf != SITE && pkt.outIf != SITE then FirstMatch(SweptSite(t).forward4, pkt, sem)
            else if SitePermitted(c, pkt) then Some(Accept) else Some(Drop))
      && FirstMatch(up.input4, pkt, sem) ==
           (if ShellPermitted(c, pkt) then Some(Accept) else FirstMatch(SweptSite(t).input4, pkt, sem))
      && FirstMatch(up.postrouting4, pkt, sem) ==
           (if pkt.outIf == c.net.uplink && pkt.src / 256 == c.net.network / 256 then Some(Masquerade)
            else FirstMatch(SweptSite(t).postrouting4, pkt, sem))
      && up.forward6 == t.forward6
      && SweptSite(up) == SweptSite(t)
  {
    hide Untagged, InsertAll, FirstMatch, SitePermitted, ShellPermitted, SiteRules, SiteForward, SweptSite;
    SiteRulesDistinct(c);
    SiteInserted(c, SweptSite(t));
    SiteChainIsPolicy(c, SweptSite(t).forward4, pkt, sem);
    ShellRuleDecides(c, SweptSite(t).input4, pkt, sem);
    NatRuleDecides(c, SweptSite(t).postrouting4, pkt, sem);
    SweptSiteLeavesV6(t);
    SweepUndoesInsert(SweptSite(t), SiteRules(c));
    SweptSiteTwice(t);
  }

  lemma SweptSiteTwice(t: Tables)
    ensures SweptSite(SweptSite(t)) == SweptSite(t)
  {
    var test := (tag: Tag) => IsSiteTag(tag);
    UntaggedNone(SweptSite(t).forward4, test) by { UntaggedMembers(t.forward4, test); }
    UntaggedNone(SweptSite(t).postrouting4, test) by { UntaggedMembers(t.postrouting4, test); }
    UntaggedNone(SweptSite(t).input4, test) by { UntaggedMembers(t.input4, test); }
  }
}
