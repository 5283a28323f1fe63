/**
 The Linux backend: it turns peers into WireGuard peers, firewall rules and source
 policy rules, one command at a time, any of which may fail.
 */
module LinuxBackend {
  import opened Wrappers
  import opened Firewall
  import opened Policy
  import opened Kernel
  import opened Netfilter
  import opened Routes
  import opened HomeSeal

  // ---- what the backend keeps true, said about values ----

  /** Keyed by their own key; pairwise distinct hosts; one service at most. */
  ghost predicate PeersOk(peers: map<string, Peer>) {
    && (forall k :: k in peers ==> peers[k].publicKey == k && ValidKey(k) && UsableHost(peers[k].host))
    && (forall j, k :: j in peers && k in peers && j != k ==> Compatible(peers[j], peers[k]))
  }

  predicate Compatible(p: Peer, q: Peer) { p.host != q.host && !(p.service && q.service) }

  function InstalledFor(c: Config, p: Peer): Installed { Installed(AllowedIps(c, p), c, p) }

  /** Every WireGuard peer is a recorded one, installed with its own addresses. */
  ghost predicate WgAgrees(c: Config, wg: map<string, Installed>, peers: map<string, Peer>) {
    forall k :: k in wg ==> k in peers && wg[k] == InstalledFor(c, peers[k])
  }

  /** What other applications wrote: their rules in every chain, and their policy rules. */
  datatype Ground = Ground(tables: Tables, policy: seq<PolicyRule>)

  ghost predicate NotOurs(t: Tables) {
    && (forall r :: r in t.forward4 ==> !CoreOrPeerTag(r.tag))
    && (forall r :: r in t.postrouting4 ==> !CoreOrPeerTag(r.tag))
    && (forall r :: r in t.forward6 ==> !CoreOrPeerTag(r.tag))
  }

  /** The chains: peer rules, then the core rules, then what other applications wrote. */
  ghost predicate Layout(c: Config, t: Tables, upper: seq<Rule>, rest: Tables) {
    && t.forward4 == upper + (CoreForward(c) + rest.forward4)
    && t.postrouting4 == [Nat(c)] + rest.postrouting4
    && t.forward6 == [DropOut(Forward6)] + ([DropIn(Forward6)] + rest.forward6)
    && t.input4 == rest.input4
    && (forall r :: r in upper ==> IsHostRule(c, r))
    && NotOurs(rest)
  }

  /** No rule of ours occurs twice, the others are theirs, in their order, and ours are sorted in among them. */
  ghost predicate PolicyLayout(policy: seq<PolicyRule>, others: seq<PolicyRule>) {
    OthersOnly(policy) == others && OursOnce(policy) && (Sorted(others) ==> Sorted(policy))
  }

  /** Whoever is let out of the uplink is recorded as a device that uses it. */
  ghost predicate Accounted(c: Config, peers: map<string, Peer>, upper: seq<Rule>) {
    forall h :: UsableHost(h) && UplinkAccept(c, h) in upper ==>
      exists k :: k in peers && peers[k].host == h && peers[k].UsesUplink()
  }

  ghost predicate Sound(c: Config, s: KState, peers: map<string, Peer>, upper: seq<Rule>, rest: Ground) {
    && c.Valid()
    && s.link == Owned && s.unreachable && !s.foreignRoutes && s.forwarding && s.settings == CoreSettings(c)
    && PeersOk(peers)
    && WgAgrees(c, s.wg, peers)
    && Layout(c, s.tables, upper, rest.tables)
    && PolicyLayout(s.policy, rest.policy)
    && Tunnelled(s.viaTunnel, peers)
  }

  /** While a device uses the home service, its table has a way through the tunnel. */
  ghost predicate Tunnelled(viaTunnel: bool, peers: map<string, Peer>) {
    viaTunnel || forall k :: k in peers ==> !peers[k].UsesHome()
  }

  /** How the tunnel interface is configured. */
  function CoreSettings(c: Config): set<Setting> { {Address4(c.Address(1), 24), Address6, Key(None), Running} }

  /** Commands on policy rules and home routes that the backend runs for a peer. */
  ghost predicate RoutingCommand(cmd: Command, wg: map<string, Installed>) {
    || cmd.RouteTunnel?
    || (cmd.PolicyAdd? && cmd.policyRule.IsOurs())
    || (cmd.PolicyDelete? && forall k :: k in wg ==> PriorityOf(wg[k].peer.host) != cmd.priority)
  }

  lemma RoutingKeepsSound(c: Config, s: KState, peers: map<string, Peer>, upper: seq<Rule>, rest: Ground, cmd: Command)
    requires Safe(s) && Sound(c, s, peers, upper, rest) && RoutingCommand(cmd, s.wg) && Enabled(s, cmd)
    ensures Safe(Apply(s, cmd)) && Sound(c, Apply(s, cmd), peers, upper, rest)
  {
    hide Layout, PeersOk, WgAgrees, PolicyLayout;
    match cmd
    case PolicyAdd(r) =>
      PolicyLayoutAdd(s.policy, rest.policy, r);
    case PolicyDelete(priority, from) =>
      PolicyLayoutDelete(s.policy, rest.policy, priority, from);
    case _ =>
    StillSafe(s, Apply(s, cmd));
  }

  lemma PolicyLayoutAdd(policy: seq<PolicyRule>, others: seq<PolicyRule>, r: PolicyRule)
    requires PolicyLayout(policy, others) && r.IsOurs() && r !in policy
    ensures PolicyLayout(AddByPriority(policy, r), others)
  {
    hide OthersOnly, OursOnce, Sorted;
    OthersOnlyAdd(policy, r);
    OursOnceAdd(policy, r);
    if Sorted(others) { SortedAdd(policy, r); }
  }

  lemma PolicyLayoutDelete(policy: seq<PolicyRule>, others: seq<PolicyRule>, priority: int, from: Option<int>)
    requires PolicyLayout(policy, others)
    ensures PolicyLayout(DeleteSelected(policy, priority, from), others)
    ensures from.Some? ==> forall r :: r in DeleteSelected(policy, priority, from) ==> !Selected(r, priority, from)
  {
    hide OthersOnly, OursOnce, Sorted;
    OthersOnlyDelete(policy, priority, from);
    OursOnceDelete(policy, priority, from);
    if Sorted(others) { SortedDelete(policy, priority, from); }
  }

  /** Nothing missing and nothing left over. */
  ghost predicate Complete(c: Config, s: KState, peers: map<string, Peer>, upper: seq<Rule>) {
    && Compiled(c, peers.Values, upper)
    && (forall k :: k in peers ==> k in s.wg)
    && (forall k :: k in peers && peers[k].UsesHome() ==> HomePolicy(c, peers[k]) in s.policy)
    && PolicyTight(c, s.policy, peers)
  }

  /** Every policy rule of ours is the home rule of a recorded peer. */
  ghost predicate PolicyTight(c: Config, policy: seq<PolicyRule>, peers: map<string, Peer>) {
    forall r :: r in policy && r.IsOurs() ==> exists k :: k in peers && IsHomeRuleOf(c, peers[k], r)
  }

  predicate IsHomeRuleOf(c: Config, p: Peer, r: PolicyRule) { p.UsesHome() && r == HomePolicy(c, p) }

  /** No other application uses a priority that a home peer may need. */
  ghost predicate PrioritiesFree(others: seq<PolicyRule>) {
    forall r, h :: r in others && UsableHost(h) ==> r.priority != PriorityOf(h)
  }

  /** Then a complete backend has room for one more home peer. */
  lemma PriorityIsFree(c: Config, s: KState, peers: map<string, Peer>, upper: seq<Rule>, rest: Ground, p: Peer)
    requires Sound(c, s, peers, upper, rest) && Complete(c, s, peers, upper) && PrioritiesFree(rest.policy)
    requires MayJoin(peers, p) && p.publicKey !in peers
    ensures forall r :: r in s.policy ==> r.priority != PriorityOf(p.host)
  {
    hide Layout, PeersOk, WgAgrees, ValidKey, Compiled;
    OthersOnlyMembers(s.policy);
    forall r | r in s.policy ensures r.priority != PriorityOf(p.host) {
      if r.IsOurs() {
        var k :| k in peers && IsHomeRuleOf(c, peers[k], r);
        assert Compatible(peers[k], p);
      }
    }
  }

  lemma HostRulesAreAbove(c: Config, p: Peer, rest: seq<Rule>)
    requires UsableHost(p.host)
    requires forall r :: r in rest ==> !CoreOrPeerTag(r.tag)
    ensures forall r :: r in PeerRules(c, p) ==>
              r.chain == Forward4 && r.tag == PeerTag(p.host) && r !in CoreForward(c) + rest && IsHostRule(c, r)
  {
  }

  /** Fewer peers, the same guards and routes, and no home rule lost that a remaining peer needs. */
  lemma StillSafe(s: KState, s2: KState)
    requires Safe(s)
    requires s2.link == Absent ==> s2.wg == map[] && s2.settings == {}
    requires forall k :: k in s2.wg ==> k in s.wg && s2.wg[k] == s.wg[k]
    requires s2.tables == s.tables && s2.unreachable == s.unreachable && s2.foreignRoutes == s.foreignRoutes
    requires forall k :: k in s2.wg && s2.wg[k].peer.UsesHome() && HomePolicy(s2.wg[k].config, s2.wg[k].peer) in s.policy ==>
               HomePolicy(s2.wg[k].config, s2.wg[k].peer) in s2.policy
    ensures Safe(s2)
  {
    forall k | k in s2.wg ensures Fenced(s2, s2.wg[k]) {
      assert Fenced(s, s.wg[k]);
    }
  }

  lemma WgRemoveKeepsSound(c: Config, s: KState, peers: map<string, Peer>, upper: seq<Rule>, rest: Ground, key: string)
    requires Safe(s) && Sound(c, s, peers, upper, rest)
    ensures Safe(Apply(s, WgRemove(key))) && Sound(c, Apply(s, WgRemove(key)), peers, upper, rest)
    ensures key !in Apply(s, WgRemove(key)).wg
  {
    StillSafe(s, Apply(s, WgRemove(key)));
  }

  /** With its rules and its home rule in place a peer may go into WireGuard. */
  lemma WgSetKeepsSound(c: Config, s: KState, peers: map<string, Peer>, upper: seq<Rule>, rest: Ground, p: Peer)
    requires Safe(s) && Sound(c, s, peers, upper, rest)
    requires p.publicKey !in peers && PeersOk(peers[p.publicKey := p])
    requires forall r :: r in PeerRules(c, p) ==> r in upper
    requires p.UsesHome() ==> HomePolicy(c, p) in s.policy && s.viaTunnel
    ensures
      var s2 := Apply(s, WgSet(p.publicKey, InstalledFor(c, p)));
      Safe(s2) && Sound(c, s2, peers[p.publicKey := p], upper, rest)
  {
    hide Layout, PeersOk, WgAgrees, PolicyLayout, Safe;
    if p.UsesHome() {
      UpperStands(c, s.tables, upper, rest.tables, UplinkGuard(c, p.host));
    }
    WgSetIsSafe(s, p.publicKey, InstalledFor(c, p));
    WgSetAgrees(c, s.wg, peers, p);
  }

  lemma WgSetIsSafe(s: KState, key: string, w: Installed)
    requires Safe(s) && s.link != Absent && Fenced(s, w)
    ensures Safe(Apply(s, WgSet(key, w)))
  {
    var s2 := Apply(s, WgSet(key, w));
    forall k | k in s2.wg ensures Fenced(s2, s2.wg[k]) {
      if k != key { assert Fenced(s, s.wg[k]); }
    }
  }

  lemma WgSetAgrees(c: Config, wg: map<string, Installed>, peers: map<string, Peer>, p: Peer)
    requires WgAgrees(c, wg, peers)
    ensures WgAgrees(c, wg[p.publicKey := InstalledFor(c, p)], peers[p.publicKey := p])
  {
  }

  lemma UpperStands(c: Config, t: Tables, upper: seq<Rule>, rest: Tables, r: Rule)
    requires Layout(c, t, upper, rest) && r in upper && r.chain == Forward4
    ensures t.Contains(r)
  {
  }

  /** Only a device that uses the uplink has a rule that opens it. */
  lemma OnlyUplinkOpens(c: Config, p: Peer)
    ensures !p.UsesUplink() ==> forall r :: r in PeerRules(c, p) ==> !OpensUplink(r)
  {
  }

  /** A completed home setup, said of the upper part of the chain. */
  lemma HomeSetup(c: Config, p: Peer, t: Tables, before: seq<Rule>, after: seq<Rule>, rest: Tables, answers: seq<bool>)
    requires c.Valid() && UsableHost(p.host) && p.UsesHome() && Layout(c, t, before, rest)
    requires |answers| == |PeerRules(c, p)| && NeverInvents(t, PeerRules(c, p), false, answers)
    requires Applied(t, PeerRules(c, p), false, answers).forward4 == after + (CoreForward(c) + rest.forward4)
    ensures |answers| == 3 && (Exposed(c, p.host, after) <==> Exposed(c, p.host, before) && answers[0])
    ensures answers[0] ==> UplinkGuard(c, p.host) in before
    ensures Truthful(t, PeerRules(c, p), false, answers, AllRules) && UplinkGuard(c, p.host) in before ==> answers[0]
  {
    hide Applied, NeverInvents, Truthful, Exposed;
    HostRulesTagged(c);
    AppliedThree(t, PeerRules(c, p), false, answers);
    HomeRuleKinds(c, p.host, UplinkGuard(c, p.host), rest.forward4);
    if Truthful(t, PeerRules(c, p), false, answers, AllRules) {
      FirstAnswer(t, PeerRules(c, p), false, answers);
    }
    assert HomeRules(c, p.host)[..3] == PeerRules(c, p);
    var same := HomePass(c, p.host, t, before, rest.forward4, 3, answers);
    SameUpper(after, same, CoreForward(c) + rest.forward4);
  }

  /** A setup that broke off has not opened the uplink: the accept is a single rule. */
  lemma BrokenOffOpensNothing(c: Config, p: Peer, n: nat)
    requires n < |PeerRules(c, p)|
    ensures forall h :: UplinkAccept(c, h) !in PeerRules(c, p)[..n]
    ensures forall r :: r in PeerRules(c, p)[..n] ==> r in PeerRules(c, p)
  {
  }

  lemma HostRulesTagged(c: Config)
    ensures forall r :: IsHostRule(c, r) ==> CoreOrPeerTag(r.tag)
  {
  }

  lemma PeerRuleTags(c: Config, p: Peer)
    ensures forall r :: r in PeerRules(c, p) ==> r.tag == PeerTag(p.host)
  {
  }

  lemma AccountedWithout(c: Config, peers: map<string, Peer>, upper: seq<Rule>, key: string, left: seq<Rule>)
    requires c.Valid() && PeersOk(peers) && key in peers && Accounted(c, peers, upper)
    requires forall r :: r in left ==> r in upper
    requires forall r :: r in PeerRules(c, peers[key]) && OpensUplink(r) ==> r !in left
    ensures Accounted(c, peers - {key}, left)
  {
    hide PeersOk, OpensUplink, PeerRules, UplinkAccept;
    var less := peers - {key};
    forall h | UsableHost(h) && UplinkAccept(c, h) in left
      ensures exists k :: k in less && less[k].host == h && less[k].UsesUplink()
    {
      var k :| k in peers && peers[k].host == h && peers[k].UsesUplink();
      UplinkPeerRule(c, peers[k]);
      assert k in less && less[k] == peers[k];
    }
  }

  lemma UplinkPeerRule(c: Config, p: Peer)
    requires c.Valid() && p.UsesUplink()
    ensures UplinkAccept(c, p.host) in PeerRules(c, p) && OpensUplink(UplinkAccept(c, p.host))
  {
  }

  lemma AccountedWith(c: Config, peers: map<string, Peer>, upper: seq<Rule>, p: Peer, more: seq<Rule>)
    requires p.publicKey !in peers && UsableHost(p.host)
    requires forall r :: r in more ==> r in upper || r in PeerRules(c, p)
    ensures Accounted(c, peers, upper) ==> Accounted(c, peers[p.publicKey := p], more)
  {
    if Accounted(c, peers, upper) {
      var plus := peers[p.publicKey := p];
      forall h | UsableHost(h) && UplinkAccept(c, h) in more
        ensures exists k :: k in plus && plus[k].host == h && plus[k].UsesUplink()
      {
        if UplinkAccept(c, h) in upper {
          var k :| k in peers && peers[k].host == h && peers[k].UsesUplink();
          assert k in plus && plus[k] == peers[k];
        } else {
          assert p.publicKey in plus;
        }
      }
    }
  }

  /** Rules of a peer that did not make it, withdrawn again, leave no accept unaccounted for. */
  lemma AccountedAgain(c: Config, peers: map<string, Peer>, upper: seq<Rule>, p: Peer, more: seq<Rule>, left: seq<Rule>)
    requires c.Valid()
    requires forall r :: r in more ==> r in upper || r in PeerRules(c, p)
    requires forall r :: r in left ==> r in more && !(r in PeerRules(c, p) && OpensUplink(r))
    ensures Accounted(c, peers, upper) ==> Accounted(c, peers, left)
  {
    forall h | UsableHost(h) && UplinkAccept(c, h) in left ensures UplinkAccept(c, h) in upper {
      assert OpensUplink(UplinkAccept(c, h));
    }
  }

  lemma AccountedUnlessNew(c: Config, peers: map<string, Peer>, upper: seq<Rule>, more: seq<Rule>)
    requires forall h :: UplinkAccept(c, h) in more ==> UplinkAccept(c, h) in upper
    ensures Accounted(c, peers, upper) ==> Accounted(c, peers, more)
  {
  }

  lemma CompleteStill(c: Config, s: KState, peers: map<string, Peer>, upper: seq<Rule>, s2: KState)
    requires Complete(c, s, peers, upper) && s2.wg == s.wg && s2.policy == s.policy
    ensures Complete(c, s2, peers, upper)
  {
  }

  /** A peer that may join: its own key and host are usable and nobody else's. */
  ghost predicate MayJoin(peers: map<string, Peer>, p: Peer) {
    && ValidKey(p.publicKey) && UsableHost(p.host)
    && forall k :: k in peers && k != p.publicKey ==> Compatible(peers[k], p)
  }

  lemma Joining(c: Config, s: KState, peers: map<string, Peer>, upper: seq<Rule>, rest: Ground, p: Peer)
    requires Sound(c, s, peers, upper, rest) && MayJoin(peers, p)
    ensures PeersOk(peers[p.publicKey := p]) && UsableHost(p.host)
    ensures p.publicKey !in peers ==> p.publicKey !in s.wg && forall k :: k in s.wg ==> s.wg[k].peer.host != p.host
  {
    hide Layout, ValidKey;
    var plus := peers[p.publicKey := p];
    forall j, k | j in plus && k in plus && j != k ensures Compatible(plus[j], plus[k]) {}
  }

  lemma MayStillJoin(c: Config, s: KState, peers: map<string, Peer>, upper: seq<Rule>, rest: Ground, p: Peer)
    requires Sound(c, s, peers, upper, rest) && MayJoin(peers, p)
    ensures MayJoin(peers - {p.publicKey}, p) && ValidKey(p.publicKey)
  {
  }

  lemma NotServed(c: Config, s: KState, peers: map<string, Peer>, upper: seq<Rule>, rest: Ground, key: string)
    requires Sound(c, s, peers, upper, rest) && key !in peers
    ensures s.wg - {key} == s.wg && peers - {key} == peers
  {
  }

  lemma NotShared(c: Config, s: KState, peers: map<string, Peer>, upper: seq<Rule>, rest: Ground, key: string)
    requires Sound(c, s, peers, upper, rest) && key in peers && key !in s.wg
    ensures c.Valid() && PeersOk(peers) && UsableHost(peers[key].host)
    ensures forall k :: k in s.wg ==> s.wg[k].peer.host != peers[key].host
  {
  }

  /** The home rule of a recorded peer, when nothing is missing. */
  lemma CompleteHasHomeRule(c: Config, s: KState, peers: map<string, Peer>, upper: seq<Rule>, key: string)
    requires Complete(c, s, peers, upper) && key in peers && peers[key].UsesHome()
    ensures HomePolicy(c, peers[key]) in s.policy
  {
  }

  lemma AccountedStill(c: Config, peers: map<string, Peer>, upper: seq<Rule>, left: seq<Rule>)
    requires forall r :: r in left ==> r in upper
    ensures Accounted(c, peers, upper) ==> Accounted(c, peers, left)
  {
  }

  lemma SoundWithout(c: Config, s: KState, peers: map<string, Peer>, upper: seq<Rule>, rest: Ground, key: string)
    requires Sound(c, s, peers, upper, rest) && key !in s.wg
    ensures Sound(c, s, peers - {key}, upper, rest)
  {
  }

  lemma CompiledWithout(c: Config, peers: map<string, Peer>, upper: seq<Rule>, key: string, left: seq<Rule>)
    requires PeersOk(peers) && key in peers && Compiled(c, peers.Values, upper)
    requires forall r :: r in left <==> r in upper && r !in PeerRules(c, peers[key])
    ensures Compiled(c, (peers - {key}).Values, left)
  {
    hide PeerRules, ValidKey;
    var less := peers - {key};
    forall r | r in left ensures exists q :: q in less.Values && r in PeerRules(c, q) {
      var q :| q in peers.Values && r in PeerRules(c, q);
      var k :| k in peers && peers[k] == q;
      assert k != key;
      assert k in less && less[k] == q;
    }
    forall q, r | q in less.Values && r in PeerRules(c, q) ensures r in left {
      var k :| k in less && less[k] == q;
      PeerRuleTags(c, peers[k]);
      PeerRuleTags(c, peers[key]);
      assert peers[k] in peers.Values;
    }
  }

  lemma CompleteWithout(c: Config, s: KState, peers: map<string, Peer>, upper: seq<Rule>, key: string, s2: KState, left: seq<Rule>)
    requires PeersOk(peers) && key in peers && Complete(c, s, peers, upper)
    requires forall r :: r in left <==> r in upper && r !in PeerRules(c, peers[key])
    requires s2.wg == s.wg - {key}
    requires forall r :: r in s.policy && r.priority != PriorityOf(peers[key].host) ==> r in s2.policy
    requires forall r :: r in s2.policy ==> r in s.policy
    requires peers[key].UsesHome() ==> HomePolicy(c, peers[key]) !in s2.policy
    ensures Complete(c, s2, peers - {key}, left)
  {
    hide Compiled, ValidKey;
    CompiledWithout(c, peers, upper, key, left);
    var less := peers - {key};
    forall r | r in s2.policy && r.IsOurs() ensures exists k :: k in less && IsHomeRuleOf(c, less[k], r) {
      var k :| k in peers && IsHomeRuleOf(c, peers[k], r);
      assert k in less && less[k] == peers[k];
    }
  }

  lemma CompiledWith(c: Config, peers: map<string, Peer>, upper: seq<Rule>, p: Peer, more: seq<Rule>)
    requires p.publicKey !in peers && Compiled(c, peers.Values, upper)
    requires forall r :: r in more <==> r in upper || r in PeerRules(c, p)
    ensures Compiled(c, peers[p.publicKey := p].Values, more)
  {
    hide PeerRules;
    var plus := peers[p.publicKey := p];
    assert plus[p.publicKey] == p;
    assert p in plus.Values;
    forall r | r in more ensures exists q :: q in plus.Values && r in PeerRules(c, q) {
      if r in upper {
        var q :| q in peers.Values && r in PeerRules(c, q);
        var k :| k in peers && peers[k] == q;
        assert plus[k] == q;
      }
    }
    forall q, r | q in plus.Values && r in PeerRules(c, q) ensures r in more {
      var k :| k in plus && plus[k] == q;
      if k != p.publicKey { assert q in peers.Values; }
    }
  }

  lemma CompleteWith(c: Config, s: KState, peers: map<string, Peer>, upper: seq<Rule>, p: Peer, s2: KState, more: seq<Rule>)
    requires p.publicKey !in peers && Complete(c, s, peers, upper)
    requires forall r :: r in more <==> r in upper || r in PeerRules(c, p)
    requires s2.wg == s.wg[p.publicKey := InstalledFor(c, p)]
    requires forall r :: r in s2.policy <==> r in s.policy || IsHomeRuleOf(c, p, r)
    ensures Complete(c, s2, peers[p.publicKey := p], more)
  {
    hide Compiled, PeerRules;
    CompiledWith(c, peers, upper, p, more);
    var plus := peers[p.publicKey := p];
    assert plus[p.publicKey] == p;
    forall r | r in s2.policy && r.IsOurs() ensures exists k :: k in plus && IsHomeRuleOf(c, plus[k], r) {
      if !IsHomeRuleOf(c, p, r) {
        var k :| k in peers && IsHomeRuleOf(c, peers[k], r);
        assert plus[k] == peers[k];
      }
    }
  }

  // ---- what a sound backend means for packets ----

  lemma RecordedHostsDiffer(peers: map<string, Peer>)
    requires PeersOk(peers)
    ensures DistinctHosts(peers.Values) && forall p :: p in peers.Values ==> UsableHost(p.host)
  {
  }

  /**
   A device may send from its own address in either family and from no other; the service
   may send from any of IPv4 and nothing of IPv6.
   */
  ghost predicate Confined(c: Config, wg: map<string, Installed>) {
    && (forall k, a: int :: k in wg && !wg[k].peer.service ==> (Admits4(wg[k].allowed, a) <==> a == c.Address(wg[k].peer.host)))
    && (forall k, h: int :: k in wg && !wg[k].peer.service ==> (Admits6(wg[k].allowed, h) <==> h == wg[k].peer.host))
    && (forall k, a: int :: k in wg && wg[k].peer.service ==> Admits4(wg[k].allowed, a) && !Admits6(wg[k].allowed, a))
  }

  lemma DevicesAreConfined(c: Config, s: KState, peers: map<string, Peer>, upper: seq<Rule>, rest: Ground)
    requires Sound(c, s, peers, upper, rest)
    ensures Confined(c, s.wg)
  {
    hide Layout, PolicyLayout, PeersOk;
  }

  /** WireGuard hands a source address to the peer with the longest matching prefix, so to a device before the service. */
  ghost predicate MaySend(wg: map<string, Installed>, k: string, address: int) {
    && k in wg && Admits4(wg[k].allowed, address)
    && (wg[k].allowed.Everything? ==> forall j :: j in wg && wg[j].allowed.Device? ==> wg[j].allowed.v4 != address)
  }

  /** No two peers may send from a common address, in either family. */
  lemma AddressesAreNotShared(c: Config, s: KState, peers: map<string, Peer>, upper: seq<Rule>, rest: Ground,
                              j: string, k: string, a: int)
    requires Sound(c, s, peers, upper, rest) && j in s.wg && k in s.wg && j != k
    ensures !(MaySend(s.wg, j, a) && MaySend(s.wg, k, a))
    ensures !(Admits6(s.wg[j].allowed, a) && Admits6(s.wg[k].allowed, a))
  {
    hide Layout, PolicyLayout, ValidKey;
    assert Compatible(peers[j], peers[k]);
    AddressesDiffer(c, peers[j].host, peers[k].host);
  }

  /**
   What a device sends is decided by its own record alone: WireGuard takes no packet from it
   but those of its own address, and what it takes goes where its exit leads.
   */
  ghost predicate DecidesAlone(c: Config, s: KState) {
    forall k, pkt: Packet, sem: Semantics ::
      k in s.wg && !s.wg[k].peer.service && pkt.inIf == TUNNEL && Admits4(s.wg[k].allowed, pkt.src) ==>
        FirstMatch(s.tables.forward4, pkt, sem) == Some(if LetOut(c, s.wg[k].peer, pkt) then Accept else Drop)
  }

  /** Where a device's packets may go: out of the uplink, or through the tunnel to beyond its own network. */
  predicate LetOut(c: Config, p: Peer, pkt: Packet) {
    || (pkt.outIf == c.uplink && p.UsesUplink())
    || (pkt.outIf == TUNNEL && p.UsesHome() && pkt.dst / 256 != c.network / 256)
  }

  lemma DevicesDecideAlone(c: Config, s: KState, peers: map<string, Peer>, upper: seq<Rule>, rest: Ground)
    requires Sound(c, s, peers, upper, rest) && Complete(c, s, peers, upper)
    ensures DecidesAlone(c, s)
  {
    hide Layout, PolicyLayout;
    forall k, pkt: Packet, sem: Semantics
      | k in s.wg && !s.wg[k].peer.service && pkt.inIf == TUNNEL && Admits4(s.wg[k].allowed, pkt.src)
      ensures FirstMatch(s.tables.forward4, pkt, sem) == Some(if LetOut(c, s.wg[k].peer, pkt) then Accept else Drop)
    {
      CompleteEnforcesPolicy(c, s, peers, upper, rest, pkt, sem);
      OwnRecordDecides(c, peers, k, pkt);
    }
  }

  lemma OwnRecordDecides(c: Config, peers: map<string, Peer>, k: string, pkt: Packet)
    requires c.Valid() && PeersOk(peers) && k in peers && !peers[k].service
    requires pkt.inIf == TUNNEL && pkt.src == c.Address(peers[k].host)
    ensures Permitted(c, peers.Values, pkt) <==> LetOut(c, peers[k], pkt)
  {
    hide ValidKey;
    AddressesDiffer(c, peers[k].host, peers[k].host);
    forall q | q in peers.Values ensures UsableHost(q.host) && (c.Address(q.host) == pkt.src <==> q == peers[k]) {
      var j :| j in peers && peers[j] == q;
      AddressesDiffer(c, q.host, peers[k].host);
      if j != k { assert Compatible(peers[j], peers[k]); }
    }
    assert peers[k] in peers.Values;
  }

  /** The priority of the kernel's own rule for the main table. */
  const MAIN_RULE: int := 32766

  /** A home device goes through the tunnel, unless somebody else's rule above the main table's leads it elsewhere. */
  ghost predicate RoutedHome(s: KState) {
    forall k, others: OtherTables ::
      k in s.wg && s.wg[k].peer.UsesHome() && NotLedAstray(s.policy, HomeAddress(s.wg[k]), others) ==>
        Lookup(s, s.policy, HomeAddress(s.wg[k]), others) == Some(Tunnel)
  }

  function HomeAddress(w: Installed): int { w.config.Address(w.peer.host) }

  ghost predicate NotLedAstray(rules: seq<PolicyRule>, src: int, others: OtherTables) {
    forall r :: r in rules && !r.IsOurs() && r.priority < MAIN_RULE ==> !Diverts(r, src, others)
  }

  lemma HomeIsRouted(c: Config, s: KState, peers: map<string, Peer>, upper: seq<Rule>, rest: Ground)
    requires Safe(s) && Sound(c, s, peers, upper, rest) && Sorted(rest.policy)
    ensures RoutedHome(s)
  {
    hide Layout, OthersOnly, OursOnce;
    forall k, others: OtherTables
      | k in s.wg && s.wg[k].peer.UsesHome() && NotLedAstray(s.policy, HomeAddress(s.wg[k]), others)
      ensures Lookup(s, s.policy, HomeAddress(s.wg[k]), others) == Some(Tunnel)
    {
      assert Fenced(s, s.wg[k]) && UsableHost(peers[k].host);
      RoutedThroughTunnel(s, HomePolicy(c, peers[k]), others);
    }
  }

  lemma RoutedThroughTunnel(s: KState, home: PolicyRule, others: OtherTables)
    requires Sorted(s.policy) && home in s.policy && home.IsOurs() && home.from.Some? && home.priority < MAIN_RULE
    requires s.unreachable && s.viaTunnel && !s.foreignRoutes
    requires NotLedAstray(s.policy, home.from.value, others)
    ensures Lookup(s, s.policy, home.from.value, others) == Some(Tunnel)
  {
    var src, rules := home.from.value, s.policy;
    assert SendsHome(home, src);
    var j :| 0 <= j < |rules| && rules[j] == home;
    HomeUnlessOvertaken(s, rules, src, others);
  }

  /** What leaves by the uplink from a tunnel address is masqueraded, and no IPv6 passes the tunnel. */
  ghost predicate OtherChainsGuard(c: Config, t: Tables, rest: Tables) {
    && (forall pkt: Packet, sem: Semantics :: FirstMatch(t.postrouting4, pkt, sem) ==
          if pkt.outIf == c.uplink && pkt.src / 256 == c.network / 256 then Some(Masquerade)
          else FirstMatch(rest.postrouting4, pkt, sem))
    && (forall pkt: Packet, sem: Semantics :: FirstMatch(t.forward6, pkt, sem) ==
          if pkt.inIf == TUNNEL || pkt.outIf == TUNNEL then Some(Drop) else FirstMatch(rest.forward6, pkt, sem))
  }

  lemma OtherChainsAreGuarded(c: Config, s: KState, peers: map<string, Peer>, upper: seq<Rule>, rest: Ground)
    requires Sound(c, s, peers, upper, rest)
    ensures OtherChainsGuard(c, s.tables, rest.tables)
  {
    hide PeersOk, WgAgrees, PolicyLayout;
    forall pkt: Packet, sem: Semantics {
      MasqueradesTunnelSources(c, rest.tables.postrouting4, pkt, sem);
    }
    forall pkt: Packet, sem: Semantics {
      DropsIPv6(rest.tables.forward6, pkt, sem);
    }
  }

  /** A complete backend enforces the declarative policy, whatever the order of its history. */
  lemma CompleteEnforcesPolicy(c: Config, s: KState, peers: map<string, Peer>, upper: seq<Rule>, rest: Ground,
                               pkt: Packet, sem: Semantics)
    requires Sound(c, s, peers, upper, rest) && Complete(c, s, peers, upper)
    ensures FirstMatch(s.tables.forward4, pkt, sem) ==
      if !pkt.TouchesTunnel() then FirstMatch(rest.tables.forward4, pkt, sem)
      else if Permitted(c, peers.Values, pkt) then Some(Accept)
      else Some(Drop)
  {
    RecordedHostsDiffer(peers);
    CompiledChainIsPolicy(c, peers.Values, upper, rest.tables.forward4, pkt, sem);
  }

  /** The verdict on a host's way to the uplink, whatever rules faults left behind. */
  lemma UplinkVerdict(c: Config, s: KState, peers: map<string, Peer>, upper: seq<Rule>, rest: Ground,
                      host: int, pkt: Packet, sem: Semantics)
    requires Sound(c, s, peers, upper, rest) && UsableHost(host) && FromHostToUplink(c, host, pkt)
    ensures FirstMatch(s.tables.forward4, pkt, sem) == Some(if Exposed(c, host, upper) then Accept else Drop)
  {
    UplinkOpenIffExposed(c, host, upper, rest.tables.forward4, pkt, sem);
  }

  /** A host no uplink device is recorded for cannot leave by the uplink, whatever rules were left behind. */
  lemma AccountedSealsUplink(c: Config, s: KState, peers: map<string, Peer>, upper: seq<Rule>, rest: Ground,
                             host: int, pkt: Packet, sem: Semantics)
    requires Sound(c, s, peers, upper, rest) && Accounted(c, peers, upper)
    requires UsableHost(host) && FromHostToUplink(c, host, pkt)
    requires forall k :: k in peers && peers[k].host == host ==> !peers[k].UsesUplink()
    ensures FirstMatch(s.tables.forward4, pkt, sem) == Some(Drop)
  {
    assert UplinkAccept(c, host) !in upper;
    UplinkVerdict(c, s, peers, upper, rest, host, pkt, sem);
  }

  /** Tearing down a sound backend gives back every chain and every policy rule that was found. */
  lemma TeardownRestores(c: Config, s: KState, peers: map<string, Peer>, upper: seq<Rule>, rest: Ground)
    requires Sound(c, s, peers, upper, rest)
    ensures TornDown(s) == KState(rest.tables, Absent, map[], rest.policy, false, false, false, {}, true)
  {
    hide Untagged, OthersOnly;
    var test := (tag: Tag) => CoreOrPeerTag(tag);
    var t := rest.tables;
    UntaggedConcat(upper, CoreForward(c) + t.forward4, test);
    UntaggedConcat(CoreForward(c), t.forward4, test);
    UntaggedAll(upper, test);
    UntaggedAll(CoreForward(c), test);
    UntaggedNone(t.forward4, test);
    UntaggedConcat([Nat(c)], t.postrouting4, test);
    UntaggedAll([Nat(c)], test);
    UntaggedNone(t.postrouting4, test);
    UntaggedConcat([DropOut(Forward6)], [DropIn(Forward6)] + t.forward6, test);
    UntaggedConcat([DropIn(Forward6)], t.forward6, test);
    UntaggedAll([DropOut(Forward6)], test);
    UntaggedAll([DropIn(Forward6)], test);
    UntaggedNone(t.forward6, test);
  }

  // ---- bringing the interface up ----

  const IPV6_NETWORK := Prefix(128, 0xfd6e_7072_6976_0000_0000_0000_0000_0000, 64)

  function TunnelNetwork(c: Config): Prefix
    requires c.Valid()
  {
    Prefix(32, c.network, c.bits)
  }

  ghost predicate NoConflict(wanted: Prefix, listing: Listing)
    requires wanted.Valid() && WellFormed(listing)
  {
    forall i, j :: 0 <= i < |listing| && 0 <= j < |listing[i]| ==> !Conflicts(wanted, listing[i][j])
  }

  lemma NetworksAreValid(c: Config)
    requires c.Valid()
    ensures TunnelNetwork(c).Valid() && IPV6_NETWORK.Valid()
  {
    AddressSpaces();
  }

  /** The networks whose routes are examined hold the subnet, and in IPv6 the address of every host. */
  lemma NetworksCoverTunnel(c: Config)
    requires c.Valid()
    ensures TunnelNetwork(c).Valid() && forall a: nat :: TunnelNetwork(c).Covers(a) <==> c.Subnet().Has(a)
    ensures IPV6_NETWORK.Valid() && forall h :: UsableHost(h) ==> IPV6_NETWORK.Covers(IPV6_NETWORK.address + h)
  {
    NetworksAreValid(c);
    AddressSpaces();
    assert Pow2(8) == 256 by { assert Pow2(4) == 16; }
    assert Pow2(64) == 0x1_00000000_00000000 by {
      hide Pow2;
      FirstPower();
      Doubling(4, 0x10, 0x100);
      Doubling(8, 0x100, 0x10000);
      Doubling(16, 0x10000, 0x1_0000_0000);
      Doubling(32, 0x1_0000_0000, 0x1_00000000_00000000);
    }
  }

  /** Neither of the tunnel's networks is routed elsewhere. */
  ghost predicate RoutesClear(c: Config, routes4: Listing, routes6: Listing)
    requires c.Valid() && WellFormed(routes4) && WellFormed(routes6)
  {
    NetworksAreValid(c);
    NoConflict(TunnelNetwork(c), routes4) && NoConflict(IPV6_NETWORK, routes6)
  }

  /** What must hold of configuration, machine and routes for the interface to come up. */
  ghost predicate Fit(c: Config, s: KState, routes4: Listing, routes6: Listing)
    requires WellFormed(routes4) && WellFormed(routes6)
  {
    c.Valid() && s.link != Unowned && !s.foreignRoutes && s.forwarding && RoutesClear(c, routes4, routes6)
  }

  lemma InvalidIsUnfit(c: Config, s: KState, routes4: Listing, routes6: Listing)
    requires WellFormed(routes4) && WellFormed(routes6)
    ensures !c.Valid() ==> !Fit(c, s, routes4, routes6)
  {
  }

  /** Everything the helper may have written is gone; the rest is as it was. */
  function TornDown(s: KState): KState {
    s.(tables := Swept(s.tables), link := Absent, wg := map[], policy := OthersOnly(s.policy),
       unreachable := false, viaTunnel := false, settings := {})
  }

  lemma CoreRulesDistinct(c: Config)
    requires c.Valid()
    ensures NoDuplicates(CoreRules(c)) && forall r :: r in CoreRules(c) ==> r.tag == CoreTag && r.chain != Input4
  {
  }

  /** The core rules over swept chains. */
  lemma CoreInserted(c: Config, t: Tables)
    requires c.Valid() && NotOurs(t)
    ensures Layout(c, InsertAll(t, CoreRules(c)), [], t)
  {
    hide InsertAll;
    var filter := [DropIn(Forward4), DropOut(Forward4)];
    InsertTwo(t, DropIn(Forward4), DropOut(Forward4));
    InsertOneMore(t, filter, UplinkReplies(c));
    var forward := filter + [UplinkReplies(c)];
    InsertOneMore(t, forward, Nat(c));
    InsertOneMore(t, forward + [Nat(c)], DropIn(Forward6));
    InsertOneMore(t, forward + [Nat(c)] + [DropIn(Forward6)], DropOut(Forward6));
    assert CoreRules(c) == forward + [Nat(c)] + [DropIn(Forward6)] + [DropOut(Forward6)];
    assert [UplinkReplies(c)] + ([DropOut(Forward4)] + ([DropIn(Forward4)] + t.forward4)) == CoreForward(c) + t.forward4;
    assert [] + (CoreForward(c) + t.forward4) == CoreForward(c) + t.forward4;
  }

  lemma InsertTwo(t: Tables, first: Rule, second: Rule)
    ensures InsertAll(t, [first, second]) == t.Insert(first).Insert(second)
  {
    InsertOneMore(t, [], first);
    InsertOneMore(t, [first], second);
    assert [] + [first] == [first] && [first] + [second] == [first, second];
  }

  lemma SweptTwice(t: Tables)
    ensures Swept(Swept(t)) == Swept(t)
  {
    var test := (tag: Tag) => CoreOrPeerTag(tag);
    SweptHasNoneOfOurs(t);
    UntaggedNone(Swept(t).forward4, test) by { UntaggedMembers(t.forward4, test); }
    UntaggedNone(Swept(t).postrouting4, test) by { UntaggedMembers(t.postrouting4, test); }
    UntaggedNone(Swept(t).forward6, test) by { UntaggedMembers(t.forward6, test); }
  }

  /** With no peers, core rules over swept chains are a complete compilation. */
  lemma FreshIsComplete(c: Config, s: KState, t: Tables, rules: seq<Rule>, answers: seq<bool>, policy: seq<PolicyRule>)
    requires c.Valid() && rules == CoreRules(c) && |answers| == |rules|
    requires NeverInvents(Swept(t), rules, false, answers)
    requires s.tables == Applied(Swept(t), rules, false, answers)
    requires s.wg == map[] && s.link == Owned && s.unreachable && !s.foreignRoutes && s.forwarding && s.settings == CoreSettings(c)
    requires s.policy == OthersOnly(policy)
    ensures Sound(c, s, map[], [], Ground(Swept(t), OthersOnly(policy)))
    ensures Complete(c, s, map[], []) && Accounted(c, map[], [])
  {
    hide Swept, OthersOnly;
    CoreRulesDistinct(c);
    SweptHasNoneOfOurs(t);
    FreshInserts(Swept(t), rules, answers);
    CoreInserted(c, Swept(t));
    OthersOnlyMembers(policy);
    OthersOnlyTwice(policy);
  }

  lemma OthersOnlyTwice(policy: seq<PolicyRule>)
    ensures OthersOnly(OthersOnly(policy)) == OthersOnly(policy) && OursOnce(OthersOnly(policy))
  {
    OthersOnlyMembers(policy);
    OthersOnlyNone(OthersOnly(policy));
  }

  /** Sweeping takes rules of ours out again, however many of them were inserted. */
  lemma {:induction false} InsertsAreSwept(t: Tables, rules: seq<Rule>, answers: seq<bool>)
    requires |answers| == |rules|
    requires forall r :: r in rules ==> CoreOrPeerTag(r.tag) && r.chain != Input4
    ensures Swept(Applied(t, rules, false, answers)) == Swept(t)
  {
    hide Untagged;
    if rules != [] {
      var n := |rules| - 1;
      InsertsAreSwept(t, rules[..n], answers[..n]);
      InsertIsSwept(Applied(t, rules[..n], false, answers[..n]), rules[n]);
    }
  }

  lemma InsertIsSwept(t: Tables, r: Rule)
    requires CoreOrPeerTag(r.tag) && r.chain != Input4
    ensures Swept(t.Insert(r)) == Swept(t)
  {
    hide Untagged;
    var test := (tag: Tag) => CoreOrPeerTag(tag);
    UntaggedConcat([r], t.Get(r.chain), test);
    UntaggedAll([r], test);
  }

  /** The swept ground, with an empty interface raised over it, tears down to what the ground tears down to. */
  lemma SweptIsTornDown(found: KState, s: KState)
    requires s.tables == Swept(found.tables) && s.policy == OthersOnly(found.policy)
    requires s.foreignRoutes == found.foreignRoutes && s.forwarding == found.forwarding
    ensures TornDown(s) == TornDown(found)
  {
    SweptTwice(found.tables);
    OthersOnlyTwice(found.policy);
  }

  lemma SweptHasNoneOfOurs(t: Tables)
    ensures NotOurs(Swept(t))
    ensures forall r: Rule :: r.chain != Input4 && Swept(t).Contains(r) ==> !CoreOrPeerTag(r.tag)
  {
    var test := (tag: Tag) => CoreOrPeerTag(tag);
    UntaggedMembers(t.forward4, test);
    UntaggedMembers(t.postrouting4, test);
    UntaggedMembers(t.forward6, test);
  }

  class Linux {
    const machine: Machine
    var config: Config
    var peers: map<string, Peer>

    // The part of the forward chain above the core rules, and everything that is not ours.
    ghost var upper: seq<Rule>
    ghost var rest: Ground
    // An accept rule could not be deleted after its peer failed to enter WireGuard.
    ghost var lost: bool
    ghost var faultsAtUp: nat
    ghost var wrongAtUp: nat
    ghost var missedAtUp: nat

    /** Since the interface came up no present accept was reported absent, and none was left behind by a failed setup. */
    ghost predicate Clean()
      reads this, machine
    {
      machine.missedOpenings == missedAtUp && !lost
    }

    /** Since the interface came up no check was wrong. */
    ghost predicate Exact()
      reads this, machine
    {
      machine.wrongChecks == wrongAtUp
    }

    ghost predicate Base()
      reads this, machine
    {
      && machine.AlwaysSafe()
      && 0 <= machine.missedOpenings - missedAtUp <= machine.wrongChecks - wrongAtUp <= machine.faults - faultsAtUp
      && Sound(config, machine.state, peers, upper, rest)
      && (Clean() ==> Once(upper, Openings))
      && (Exact() ==> Once(upper, AllRules))
    }

    ghost predicate Ready()
      reads this, machine
    {
      && Base()
      && (Clean() ==> Accounted(config, peers, upper))
      && (machine.faults == faultsAtUp ==> Clean() && Complete(config, machine.state, peers, upper))
    }

    constructor (machine: Machine)
      ensures this.machine == machine && peers == map[]
    {
      this.machine, peers := machine, map[];
    }

    /** A home setup leaves a device exposed exactly if it was so `before` and its guard's check said "present". */
    ghost predicate SealedIf(p: Peer, seen: bool, before: seq<Rule>)
      reads this`upper, this`config
    {
      p.UsesHome() ==>
        && (Exposed(config, p.host, upper) <==> Exposed(config, p.host, before) && seen)
        && (seen ==> UplinkGuard(config, p.host) in before)
    }

    /** Apply a peer's rules, keeping track of the upper part of the chain; `seen` is the first check's answer. */
    method ApplyPeerRules(p: Peer, remove: bool) returns (ok: bool, ghost seen: bool)
      requires Base() && UsableHost(p.host)
      requires remove ==> forall k :: k in machine.state.wg ==> machine.state.wg[k].peer.host != p.host
      modifies machine, this`upper
      ensures Base() && Quiet(machine)
      ensures machine.state == old(machine.state).(tables := machine.state.tables)
      ensures Clean() ==> old(Clean())
      ensures forall r :: r in upper ==> r in old(upper) || (!remove && r in PeerRules(config, p))
      ensures forall r :: r in old(upper) && !(remove && r in PeerRules(config, p)) ==> r in upper
      ensures ok && !remove ==> forall r :: r in PeerRules(config, p) ==> r in upper
      ensures ok && !remove ==> SealedIf(p, seen, old(upper))
      ensures ok && !remove && p.UsesHome() && Exact() && UplinkGuard(config, p.host) in old(upper) ==> seen
      ensures !ok && !remove ==> forall h :: UplinkAccept(config, h) in upper ==> UplinkAccept(config, h) in old(upper)
      ensures ok && remove && Clean() ==> forall r :: r in PeerRules(config, p) && OpensUplink(r) ==> r !in upper
      ensures ok && remove && Exact() ==> forall r :: r in PeerRules(config, p) ==> r !in upper
      ensures machine.faults == old(machine.faults) ==> ok && Clean() == old(Clean()) && Exact() == old(Exact())
    {
      hide Applied, NeverInvents, Truthful, Once, AllSafe, IsHostRule, Exposed, PolicyLayout, PeersOk, WgAgrees, CoreForward;
      hide PeerRules, Tunnelled;
      ghost var t, before := machine.state.tables, upper;
      ghost var lower := CoreForward(config) + rest.tables.forward4;
      var rules := PeerRules(config, p);
      HostRulesAreAbove(config, p, rest.tables.forward4);
      ghost var answers;
      ok, answers := ApplyRules(machine, rules, remove);
      ghost var done := rules[..|answers|];
      assert forall r :: r in done ==> r in rules;
      assert ok ==> done == rules;
      if !ok { BrokenOffOpensNothing(config, p, |answers|); }
      upper := AppliedSplit(t, before, lower, done, remove, answers, AllRules);
      ghost var same := AppliedSplit(t, before, lower, done, remove, answers, Openings);
      SameUpper(upper, same, lower);
      seen := |answers| > 0 && answers[0];
      if ok && !remove && p.UsesHome() {
        HomeSetup(config, p, t, before, upper, rest.tables, answers);
      }
    }

    /** Run a command that leaves peers, rules and link alone. */
    method RunRouting(cmd: Command) returns (ok: bool)
      requires Base()
      requires RoutingCommand(cmd, machine.state.wg)
      modifies machine
      ensures Base() && Quiet(machine)
      ensures machine.state == if ok then Apply(old(machine.state), cmd) else old(machine.state)
      ensures ok ==> Enabled(old(machine.state), cmd)
      ensures machine.faults == old(machine.faults) ==> (ok <==> Enabled(old(machine.state), cmd))
    {
      hide Once, Sound, Safe;
      if Enabled(machine.state, cmd) { RoutingKeepsSound(config, machine.state, peers, upper, rest, cmd); }
      ok := machine.Exec(cmd);
    }

    /** Somebody already routes by the priority a home peer needs. */
    ghost predicate Conflict(p: Peer)
      reads this, machine
    {
      p.UsesHome() && exists r :: r in machine.state.policy && r.priority == PriorityOf(p.host)
    }

    /** Routes, policy rule and firewall rules of a peer about to be installed. */
    method InstallRouting(p: Peer) returns (ok: bool, ghost seen: bool)
      requires Base() && UsableHost(p.host)
      modifies machine, this`upper
      ensures Base() && Quiet(machine) && machine.state.wg == old(machine.state.wg)
      ensures Clean() ==> old(Clean())
      ensures forall r :: r in upper ==> r in old(upper) || r in PeerRules(config, p)
      ensures forall r :: r in old(upper) ==> r in upper
      ensures forall r :: r in old(machine.state.policy) ==> r in machine.state.policy
      ensures ok ==> forall r :: r in PeerRules(config, p) ==> r in upper
      ensures ok ==> forall r :: r in machine.state.policy <==> r in old(machine.state.policy) || IsHomeRuleOf(config, p, r)
      ensures ok ==> !old(Conflict(p)) && SealedIf(p, seen, old(upper))
      ensures old(machine.state).viaTunnel || (ok && p.UsesHome()) ==> machine.state.viaTunnel
      ensures ok && p.UsesHome() && Exact() && UplinkGuard(config, p.host) in old(upper) ==> seen
      ensures !ok ==> forall h :: UplinkAccept(config, h) in upper ==> UplinkAccept(config, h) in old(upper)
      ensures machine.faults == old(machine.faults) ==> Clean() == old(Clean()) && Exact() == old(Exact())
      ensures machine.faults == old(machine.faults) && !ok ==>
                old(Conflict(p)) && upper == old(upper) && machine.state.policy == old(machine.state.policy)
    {
      hide ValidKey, AllSafe, Once, Layout, PolicyLayout, PeersOk, WgAgrees, Safe, SealedIf;
      seen := false;
      if p.UsesHome() {
        ok := RunRouting(RouteTunnel);
        if !ok { return; }
        // Refuse a conflicting priority rather than overriding somebody else's rule.
        var listing := machine.Read();
        if listing.None? { return false, false; }
        if exists r :: r in listing.value.policy && r.priority == PriorityOf(p.host) { return false, false; }
        assert HomePolicy(config, p) !in machine.state.policy;
        ok := RunRouting(PolicyAdd(HomePolicy(config, p)));
        if !ok { return; }
      }
      ok, seen := ApplyPeerRules(p, false);
    }

    /** The reverse, once the peer is out of WireGuard. */
    method WithdrawRouting(p: Peer) returns (ok: bool)
      requires Base() && UsableHost(p.host)
      requires forall k :: k in machine.state.wg ==> machine.state.wg[k].peer.host != p.host
      modifies machine, this`upper
      ensures Base() && Quiet(machine) && machine.state.wg == old(machine.state.wg)
      ensures Clean() ==> old(Clean())
      ensures forall r :: r in upper ==> r in old(upper)
      ensures forall r :: r in old(upper) && r !in PeerRules(config, p) ==> r in upper
      ensures ok && Clean() ==> forall r :: r in PeerRules(config, p) && OpensUplink(r) ==> r !in upper
      ensures ok && Exact() ==> forall r :: r in PeerRules(config, p) ==> r !in upper
      ensures ok && p.UsesHome() ==> HomePolicy(config, p) !in machine.state.policy
      ensures forall r :: r in old(machine.state.policy) && r.priority != PriorityOf(p.host) ==> r in machine.state.policy
      ensures forall r :: r in machine.state.policy ==> r in old(machine.state.policy)
      ensures machine.faults == old(machine.faults) ==> Clean() == old(Clean()) && Exact() == old(Exact())
      ensures machine.faults == old(machine.faults) && !ok ==>
                p.UsesHome() && HomePolicy(config, p) !in old(machine.state.policy)
      ensures !ok && p.UsesUplink() ==> machine.faults > old(machine.faults)
    {
      hide ValidKey, AllSafe, Once, Layout, PeersOk, WgAgrees, Safe, PolicyLayout;
      ghost var seen;
      ok, seen := ApplyPeerRules(p, true);
      if ok && p.UsesHome() {
        if HomePolicy(config, p) in machine.state.policy {
          assert Selected(HomePolicy(config, p), PriorityOf(p.host), Some(config.Address(p.host)));
        }
        PolicyLayoutDelete(machine.state.policy, rest.policy, PriorityOf(p.host), Some(config.Address(p.host)));
        ok := RunRouting(PolicyDelete(PriorityOf(p.host), Some(config.Address(p.host))));
      }
    }

    /** Withdraw a recorded peer that WireGuard no longer serves, then forget it. */
    method Forget(key: string, ghost before: KState) returns (ok: bool)
      requires Base() && key in peers
      requires machine.state == Apply(before, WgRemove(key))
      requires Clean() ==> Accounted(config, peers, upper)
      requires machine.faults == faultsAtUp ==> Clean() && Complete(config, before, peers, upper)
      modifies machine, this`upper, this`peers
      ensures Base() && Quiet(machine) && machine.state.wg == old(machine.state.wg)
      ensures Clean() ==> old(Clean()) && Accounted(config, peers, upper)
      ensures machine.faults == faultsAtUp ==> ok && Clean() && Complete(config, machine.state, peers, upper)
      ensures peers == if ok then old(peers) - {key} else old(peers)
      ensures forall r :: r in machine.state.policy ==> r in old(machine.state.policy)
      ensures forall r :: r in upper ==> r in old(upper)
    {
      hide ValidKey, AllSafe, Once, Sound, Safe, Complete, Accounted, PeerRules, PeersOk;
      NotShared(config, machine.state, peers, upper, rest, key);
      ghost var wasUpper := upper;
      if machine.faults == faultsAtUp && peers[key].UsesHome() {
        CompleteHasHomeRule(config, before, peers, upper, key);
      }
      ok := WithdrawRouting(peers[key]);
      if ok {
        if Clean() { AccountedWithout(config, peers, wasUpper, key, upper); }
        if machine.faults == faultsAtUp { CompleteWithout(config, before, peers, wasUpper, key, machine.state, upper); }
        SoundWithout(config, machine.state, peers, upper, rest, key);
        peers := peers - {key};
      } else {
        AccountedStill(config, peers, wasUpper, upper);
      }
    }

    /** Out of WireGuard first, then its rules; the record goes last. */
    method RemovePeer(key: string) returns (ok: bool)
      requires Ready()
      modifies machine, this`upper, this`peers
      ensures Ready() && Quiet(machine)
      ensures Clean() ==> old(Clean())
      ensures ok ==> peers == old(peers) - {key} && machine.state.wg == old(machine.state.wg) - {key}
      ensures !ok ==> peers == old(peers)
      ensures machine.state.wg in {old(machine.state.wg), old(machine.state.wg) - {key}}
      ensures forall r :: r in machine.state.policy ==> r in old(machine.state.policy)
      ensures forall r :: r in upper ==> r in old(upper)
      ensures machine.faults == faultsAtUp ==> (ok <==> ValidKey(key))
      ensures machine.faults == old(machine.faults) && ValidKey(key) ==> machine.state.wg == old(machine.state.wg) - {key}
    {
      hide ValidKey, AllSafe, Once, Layout, Safe, Complete, Accounted, PeersOk, WgAgrees, PolicyLayout;
      if !ValidKey(key) { return false; }
      machine.SafeNow();
      WgRemoveKeepsSound(config, machine.state, peers, upper, rest, key);
      ok := machine.Exec(WgRemove(key));
      if ok {
        if key in peers {
          ok := Forget(key, old(machine.state));
        } else {
          NotServed(config, old(machine.state), peers, upper, rest, key);
        }
      }
    }

    /** Install a peer the backend does not know. */
    method AddPeer(p: Peer) returns (ok: bool, ghost seen: bool)
      requires Ready() && p.publicKey !in peers && MayJoin(peers, p)
      modifies machine, this`upper, this`lost, this`peers
      ensures Ready() && Onward(machine)
      ensures Clean() ==> old(Clean())
      ensures ok ==> lost == old(lost)
      ensures lost ==> old(lost) || (p.UsesUplink() && machine.faults > old(machine.faults) + 1)
      ensures peers == if ok then old(peers)[p.publicKey := p] else old(peers)
      ensures machine.state.wg == if ok then old(machine.state.wg)[p.publicKey := InstalledFor(config, p)]
                                  else old(machine.state.wg)
      ensures machine.installs == old(machine.installs) + if ok then [InstalledFor(config, p)] else []
      ensures ok ==> SealedIf(p, seen, old(upper))
      ensures ok && p.UsesHome() && Exact() && UplinkGuard(config, p.host) in old(upper) ==> seen
      ensures machine.faults == faultsAtUp && PrioritiesFree(rest.policy) ==> ok
    {
      hide ValidKey, AllSafe, Once, Layout, Safe, Complete, Accounted, PeerRules, PeersOk, WgAgrees, MayJoin;
      hide PolicyLayout, SealedIf, PrioritiesFree;
      ghost var start, before := machine.state, upper;
      Joining(config, machine.state, peers, upper, rest, p);
      if machine.faults == faultsAtUp && PrioritiesFree(rest.policy) {
        PriorityIsFree(config, machine.state, peers, upper, rest, p);
      }
      ok, seen := InstallRouting(p);
      if !ok {
        AccountedUnlessNew(config, peers, before, upper);
        if machine.faults == faultsAtUp { CompleteStill(config, start, peers, upper, machine.state); }
        return;
      }
      ok := Enter(p, start, before);
    }

    /** The last step of an installation, once routes and rules are in place. */
    method Enter(p: Peer, ghost start: KState, ghost before: seq<Rule>) returns (ok: bool)
      requires Base() && PeersOk(peers[p.publicKey := p]) && UsableHost(p.host)
      requires p.publicKey !in peers && p.publicKey !in machine.state.wg && machine.state.wg == start.wg
      requires forall k :: k in machine.state.wg ==> machine.state.wg[k].peer.host != p.host
      requires forall r :: r in upper <==> r in before || r in PeerRules(config, p)
      requires forall r :: r in machine.state.policy <==> r in start.policy || IsHomeRuleOf(config, p, r)
      requires p.UsesHome() ==> machine.state.viaTunnel
      requires Clean() ==> Accounted(config, peers, before)
      requires machine.faults == faultsAtUp ==> Clean() && Complete(config, start, peers, before)
      modifies machine, this`upper, this`lost, this`peers
      ensures Ready() && Onward(machine)
      ensures Clean() ==> old(Clean())
      ensures ok ==> lost == old(lost) && upper == old(upper)
      ensures lost ==> old(lost) || (p.UsesUplink() && machine.faults > old(machine.faults) + 1)
      ensures peers == if ok then old(peers)[p.publicKey := p] else old(peers)
      ensures machine.state.wg == if ok then old(machine.state.wg)[p.publicKey := InstalledFor(config, p)]
                                  else old(machine.state.wg)
      ensures machine.installs == old(machine.installs) + if ok then [InstalledFor(config, p)] else []
      ensures machine.faults == faultsAtUp ==> ok
    {
      hide ValidKey, AllSafe, Once, Layout, Safe, Complete, Accounted, PeerRules, PeersOk, WgAgrees, PolicyLayout;
      machine.SafeNow();
      WgSetKeepsSound(config, machine.state, peers, upper, rest, p);
      ok := machine.Exec(WgSet(p.publicKey, Installed(AllowedIps(config, p), config, p)));
      if ok {
        AccountedWith(config, peers, before, p, upper);
        if machine.faults == faultsAtUp { CompleteWith(config, start, peers, before, p, machine.state, upper); }
        peers := peers[p.publicKey := p];
      } else {
        Undo(p, before);
      }
    }

    /** Withdraw what a peer that did not enter WireGuard was given. */
    method Undo(p: Peer, ghost before: seq<Rule>)
      requires Base() && UsableHost(p.host) && machine.faults > faultsAtUp
      requires forall k :: k in machine.state.wg ==> machine.state.wg[k].peer.host != p.host
      requires forall r :: r in upper ==> r in before || r in PeerRules(config, p)
      requires Clean() ==> Accounted(config, peers, before)
      modifies machine, this`upper, this`lost
      ensures Ready() && Quiet(machine) && machine.state.wg == old(machine.state.wg)
      ensures Clean() ==> old(Clean())
      ensures lost ==> old(lost) || (p.UsesUplink() && machine.faults > old(machine.faults))
    {
      hide ValidKey, AllSafe, Once, Layout, Safe, Complete, Accounted, PeersOk, WgAgrees, PolicyLayout;
      ghost var more := upper;
      var withdrawn := WithdrawRouting(p);
      if !withdrawn && p.UsesUplink() { lost := true; }
      if Clean() {
        OnlyUplinkOpens(config, p);
        AccountedAgain(config, peers, before, p, more, upper);
      }
    }

    /** Bring one peer to its recorded form; disable it before changing routes. */
    method SetPeer(p: Peer) returns (ok: bool, ghost seen: bool)
      requires Ready() && MayJoin(peers, p)
      modifies machine, this`upper, this`lost, this`peers
      ensures Ready() && Onward(machine)
      ensures Clean() ==> old(Clean())
      ensures ok ==> lost == old(lost)
      ensures ok ==> peers == old(peers)[p.publicKey := p]
      ensures !ok ==> peers == old(peers) || (old(Holds(p.publicKey)) && !old(Has(p)) && peers == old(peers) - {p.publicKey})
      ensures ok && !old(Has(p)) ==> machine.state.wg == old(machine.state.wg)[p.publicKey := InstalledFor(config, p)]
      ensures !ok ==> forall k :: k in machine.state.wg ==> k in old(machine.state.wg)
      ensures old(Has(p)) ==> ok && machine.state == old(machine.state)
      ensures machine.installs == old(machine.installs) + if ok && !old(Has(p)) then [InstalledFor(config, p)] else []
      ensures ok && p.publicKey !in old(peers) ==> SealedIf(p, seen, old(upper))
      ensures ok && p.publicKey !in old(peers) && p.UsesHome() && Exact() && UplinkGuard(config, p.host) in old(upper) ==> seen
      ensures ok && p.UsesHome() && !old(Has(p)) && Exposed(config, p.host, upper) ==> seen
      ensures ok && p.UsesHome() && seen ==> UplinkGuard(config, p.host) in old(upper)
      ensures machine.faults == faultsAtUp && PrioritiesFree(rest.policy) ==> ok
    {
      hide ValidKey, AllSafe, Once, Sound, Safe, Complete, Accounted, PeerRules, MayJoin, Exposed, PrioritiesFree;
      hide UplinkGuard, InstalledFor, AllowedIps, UsableHost;
      seen := false;
      if p.publicKey in peers {
        if peers[p.publicKey] == p {
          assert peers[p.publicKey := p] == peers;
          return true, false;
        }
        MayStillJoin(config, machine.state, peers, upper, rest, p);
        ok := RemovePeer(p.publicKey);
        if !ok { return; }
      }
      assert (peers - {p.publicKey})[p.publicKey := p] == old(peers)[p.publicKey := p];
      ghost var wg, w := old(machine.state.wg), InstalledFor(config, p);
      assert (wg - {p.publicKey})[p.publicKey := w] == wg[p.publicKey := w];
      ok, seen := AddPeer(p);
    }

    ghost predicate Holds(key: string)
      reads this
    {
      key in peers
    }

    ghost predicate Has(p: Peer)
      reads this
    {
      p.publicKey in peers && peers[p.publicKey] == p
    }

    /** The interface goes first, so that a crash half-way leaves no peer unfenced; then only tagged rules. */
    method Down() returns (ok: bool)
      requires machine.AlwaysSafe()
      modifies machine, this`peers
      ensures machine.AlwaysSafe() && Quiet(machine)
      ensures ok ==> machine.state == TornDown(old(machine.state)) && peers == map[]
      ensures !ok ==> peers in {map[], old(peers)}
      ensures machine.state.foreignRoutes == old(machine.state).foreignRoutes
      ensures machine.state.forwarding == old(machine.state).forwarding
      ensures old(machine.state).link == Unowned ==> !ok && machine.state == old(machine.state)
      ensures !ok ==> old(machine.state).link == Unowned || machine.faults > old(machine.faults)
      ensures old(machine.state).link != Unowned ==> machine.state.link == Absent || machine.deleteFaults > old(machine.deleteFaults)
    {
      hide Swept, OthersOnly, AllSafe;
      machine.SafeNow();
      if machine.state.link == Unowned { return false; }
      if machine.state.link == Owned {
        assert Apply(machine.state, LinkDelete).wg == map[];
        ok := machine.Exec(LinkDelete);
        if !ok { return; }
      }
      peers := map[];
      ok := CleanupCoreRules(machine);
      if !ok { return; }
      ok := CleanupHomeRouting(machine);
    }

    /** Refuse a foreign interface, tear down what a crash left, and lay the terminal route. */
    method ClearGround() returns (ok: bool)
      requires machine.AlwaysSafe()
      modifies machine, this`peers
      ensures machine.AlwaysSafe() && Quiet(machine)
      ensures ok ==> machine.state.link == Absent && machine.state.wg == map[] && machine.state.unreachable
      ensures ok ==> machine.state.tables == Swept(old(machine.state).tables) && !machine.state.foreignRoutes
      ensures ok ==> machine.state.policy == OthersOnly(old(machine.state).policy)
      ensures machine.state.foreignRoutes == old(machine.state).foreignRoutes
      ensures machine.state.forwarding == old(machine.state).forwarding
      ensures ok ==> peers == map[] || peers == old(peers)
      ensures !ok ==> peers in {map[], old(peers)}
      ensures !ok ==> old(machine.state).link == Unowned || old(machine.state).foreignRoutes || machine.faults > old(machine.faults)
      ensures old(machine.state).link == Unowned ==> !ok && machine.state == old(machine.state)
      ensures old(machine.state).link != Unowned ==> machine.state.link == Absent || machine.deleteFaults > old(machine.deleteFaults)
    {
      hide Swept, OthersOnly, AllSafe;
      if machine.state.link == Unowned { return false; }
      if machine.state.link == Owned {
        ok := Down();
        if !ok { return; }
      }
      SweptTwice(old(machine.state).tables);
      OthersOnlyTwice(old(machine.state).policy);
      machine.SafeNow();
      ok := CleanupCoreRules(machine);
      if !ok { return; }
      ok := CleanupHomeRouting(machine);
      if !ok { return; }
      ok := PrepareHomeRouting(machine);
    }

    /** Create and configure the interface; its alias makes it ours. */
    method CreateInterface() returns (ok: bool)
      requires machine.AlwaysSafe() && machine.state.link == Absent && machine.state.wg == map[]
      modifies machine
      ensures machine.AlwaysSafe() && Quiet(machine)
      ensures ok ==> machine.state == old(machine.state).(link := Owned, settings := {})
      ensures !ok ==> machine.faults > old(machine.faults)
      ensures !ok ==> machine.state.link == Absent || machine.deleteFaults > old(machine.deleteFaults)
    {
      ok := RunIdle(machine, LinkAdd);
      if !ok { return; }
      ok := RunIdle(machine, LinkAlias);
      if !ok {
        var _ := RunIdle(machine, LinkDelete);
        return;
      }
    }

    /** The interface's own addresses. */
    method AddressInterface(c: Config) returns (ok: bool)
      requires machine.AlwaysSafe() && machine.state.link == Owned && machine.state.wg == map[]
      modifies machine
      ensures machine.AlwaysSafe() && Quiet(machine)
      ensures machine.state == old(machine.state).(settings := machine.state.settings)
      ensures ok ==> machine.state.settings == old(machine.state).settings + {Address4(c.Address(1), 24), Address6}
      ensures !ok ==> machine.faults > old(machine.faults)
    {
      hide AllSafe, Apply, Enabled;
      ok := Adjust(machine, Configure(Address4(c.Address(1), 24)));
      if ok { ok := Adjust(machine, Configure(Address6)); }
    }

    /** Addresses, key and port, and bringing the link up. */
    method ConfigureInterface(c: Config) returns (ok: bool)
      requires machine.AlwaysSafe() && machine.state.link == Owned && machine.state.wg == map[]
      modifies machine
      ensures machine.AlwaysSafe() && Quiet(machine)
      ensures machine.state == old(machine.state).(settings := machine.state.settings)
      ensures ok ==> machine.state.settings == old(machine.state).settings + CoreSettings(c)
      ensures !ok ==> machine.faults > old(machine.faults)
    {
      hide AllSafe, Apply, Enabled;
      ok := AddressInterface(c);
      if !ok { return; }
      ok := Adjust(machine, WgSetConf(None));
      if !ok { return; }
      ok := Adjust(machine, Configure(Running));
    }

    /** Everything that must hold before the interface is created. */
    method Preflight(c: Config, routes4: Listing, routes6: Listing) returns (ok: bool)
      requires machine.AlwaysSafe() && c.Valid() && WellFormed(routes4) && WellFormed(routes6)
      modifies machine, this`peers
      ensures machine.AlwaysSafe() && Quiet(machine)
      ensures ok ==> machine.state.link == Absent && machine.state.wg == map[] && machine.state.unreachable
      ensures ok ==> machine.state.tables == Swept(old(machine.state).tables) && !machine.state.foreignRoutes
      ensures ok ==> machine.state.policy == OthersOnly(old(machine.state).policy)
      ensures machine.state.foreignRoutes == old(machine.state).foreignRoutes
      ensures machine.state.forwarding == old(machine.state).forwarding
      ensures ok ==> machine.state.forwarding && RoutesClear(c, routes4, routes6)
      ensures peers in {map[], old(peers)}
      ensures old(machine.state).link == Unowned ==> !ok && machine.state == old(machine.state)
      ensures old(machine.state).link != Unowned ==> machine.state.link == Absent || machine.deleteFaults > old(machine.deleteFaults)
      ensures !ok ==> !Fit(c, old(machine.state), routes4, routes6) || machine.faults > old(machine.faults)
    {
      hide Swept, OthersOnly, AllSafe, Pow2, Conflicts;
      NetworksAreValid(c);
      ok := ClearGround();
      if !ok { return false; }
      var listing := machine.Read();
      if listing.None? || !listing.value.forwarding { return false; }
      listing := machine.Read();
      if listing.None? { return false; }
      ok := CheckRoutes(TunnelNetwork(c), routes4);
      if !ok { return; }
      listing := machine.Read();
      if listing.None? { return false; }
      ok := CheckRoutes(IPV6_NETWORK, routes6);
    }

    /** Configure the interface and lay the core rules over the swept chains. */
    method LayCore(c: Config, ghost t: Tables, ghost policy: seq<PolicyRule>) returns (ok: bool)
      requires machine.AlwaysSafe() && c.Valid() && machine.state.link == Owned && machine.state.wg == map[]
      requires machine.state.unreachable && !machine.state.foreignRoutes && machine.state.forwarding && machine.state.settings == {}
      requires machine.state.tables == Swept(t) && machine.state.policy == OthersOnly(policy)
      modifies machine
      ensures machine.AlwaysSafe() && Quiet(machine)
      ensures ok ==> Sound(c, machine.state, map[], [], Ground(Swept(t), OthersOnly(policy)))
      ensures ok ==> Complete(c, machine.state, map[], []) && Accounted(c, map[], [])
      ensures !ok ==> machine.faults > old(machine.faults)
      ensures TornDown(machine.state) == TornDown(old(machine.state)) && machine.state.link == Owned
    {
      hide Swept, OthersOnly, AllSafe, Applied, NeverInvents, Truthful, CoreRules, Sound, Complete, Accounted;
      ok := ConfigureInterface(c);
      if !ok { return; }
      ghost var answers;
      ok, answers := ApplyRules(machine, CoreRules(c), false);
      CoreRulesDistinct(c);
      InsertsAreSwept(Swept(t), CoreRules(c)[..|answers|], answers);
      if ok {
        assert CoreRules(c)[..|answers|] == CoreRules(c);
        FreshIsComplete(c, machine.state, t, CoreRules(c), answers, policy);
      }
    }

    /** Create the interface over swept ground and lay the core; once it was `raised`, a failure tears all down again. */
    method Raise(c: Config, ghost found: KState) returns (ok: bool, ghost raised: bool)
      requires machine.AlwaysSafe() && c.Valid() && machine.state.link == Absent && machine.state.wg == map[]
      requires machine.state.unreachable && !machine.state.foreignRoutes && machine.state.forwarding
      requires machine.state.tables == Swept(found.tables) && machine.state.policy == OthersOnly(found.policy)
      requires !found.foreignRoutes && found.forwarding && peers == map[]
      modifies machine, this`peers
      ensures machine.AlwaysSafe() && Quiet(machine) && peers == map[]
      ensures ok ==> Sound(c, machine.state, map[], [], Ground(Swept(found.tables), OthersOnly(found.policy)))
      ensures ok ==> Complete(c, machine.state, map[], []) && Accounted(c, map[], []) && raised
      ensures !ok ==> machine.faults > old(machine.faults)
      ensures !ok && raised ==> machine.state == TornDown(found) || machine.faults > old(machine.faults) + 1
      ensures !ok ==> machine.state.link == Absent || machine.deleteFaults > old(machine.deleteFaults)
    {
      hide Swept, OthersOnly, AllSafe, Sound, Complete, Accounted, TornDown;
      raised := false;
      ok := CreateInterface();
      if !ok { return; }
      raised := true;
      SweptIsTornDown(found, machine.state);
      ok := LayCore(c, found.tables, found.policy);
      if !ok {
        var _ := Down();
      }
    }

    /**
     From whatever safe state the machine is in, a crashed run's included. `routes4` and
     `routes6` are the listings of all routes. Once the interface was `raised`, a failure
     tears everything down again.
     */
    method Up(c: Config, routes4: Listing, routes6: Listing) returns (ok: bool, ghost raised: bool)
      requires machine.AlwaysSafe() && WellFormed(routes4) && WellFormed(routes6)
      modifies machine, this
      ensures machine.AlwaysSafe() && Quiet(machine)
      ensures ok ==> Ready() && config == c && peers == map[] && Clean() && machine.faults == faultsAtUp
      ensures ok ==> upper == [] && rest == Ground(Swept(old(machine.state).tables), OthersOnly(old(machine.state).policy))
      ensures ok ==> !old(machine.state).foreignRoutes
      ensures ok ==> c.Valid() && old(machine.state).forwarding && RoutesClear(c, routes4, routes6)
      ensures peers == map[]
      ensures !ok ==> !Fit(c, old(machine.state), routes4, routes6) || machine.faults > old(machine.faults)
      ensures ok ==> raised
      ensures !ok && raised ==> machine.state == TornDown(old(machine.state)) || machine.faults > old(machine.faults) + 1
      ensures !c.Valid() || old(machine.state).link == Unowned ==> !ok && machine.state == old(machine.state)
      ensures !ok && c.Valid() && old(machine.state).link != Unowned ==>
                machine.state.link == Absent || machine.deleteFaults > old(machine.deleteFaults)
    {
      hide Swept, OthersOnly, AllSafe, RoutesClear, Sound, Complete, Accounted, Fit, CoreSettings, TornDown;
      raised := false;
      InvalidIsUnfit(c, machine.state, routes4, routes6);
      config, peers := c, map[];
      upper, rest, lost := [], Ground(Swept(machine.state.tables), OthersOnly(machine.state.policy)), false;
      if !c.Valid() { return false, false; }
      ok := Preflight(c, routes4, routes6);
      if !ok { return; }
      ok, raised := Raise(c, old(machine.state));
      faultsAtUp, wrongAtUp, missedAtUp := machine.faults, machine.wrongChecks, machine.missedOpenings;
    }
  }
}
