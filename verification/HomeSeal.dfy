/**
 Whether a device set up for the home exit can use the server's own uplink. Two lines keep it
 from there: its policy rule, which another application's rule may overtake, and the firewall,
 which rests on the presence checks, because one that times out reads as "absent" and then a
 rule to be withdrawn stays behind. It leaves exactly when both fail.
 */
module HomeSeal {
  import opened Wrappers
  import opened Firewall
  import opened Policy
  import opened Kernel

  ghost predicate HostRulesOver(c: Config, t: Tables, upper: seq<Rule>, rest: seq<Rule>) {
    && t.forward4 == upper + (CoreForward(c) + rest)
    && (forall r :: r in upper ==> IsHostRule(c, r))
    && (forall r :: r in rest ==> !IsHostRule(c, r))
  }

  lemma HomeRuleKinds(c: Config, host: int, r: Rule, rest: seq<Rule>)
    requires UsableHost(host) && r in HomeRules(c, host)
    requires forall x :: x in rest ==> !IsHostRule(c, x)
    ensures IsHostRule(c, r) && r.chain == Forward4 && r != UplinkAccept(c, host) && r !in CoreForward(c) + rest
  {
  }

  /** The first `n` home rules over any chain a helper may have left, whatever the checks answer. */
  lemma {:induction false} HomePass(c: Config, host: int, t: Tables, upper: seq<Rule>, rest: seq<Rule>, n: nat, answers: seq<bool>)
    returns (upper2: seq<Rule>)
    requires c.Valid() && UsableHost(host) && HostRulesOver(c, t, upper, rest) && n <= 3
    requires |answers| == n && NeverInvents(t, HomeRules(c, host)[..n], false, answers)
    ensures Applied(t, HomeRules(c, host)[..n], false, answers) == t.(forward4 := upper2 + (CoreForward(c) + rest))
    ensures HostRulesOver(c, Applied(t, HomeRules(c, host)[..n], false, answers), upper2, rest)
    ensures Exposed(c, host, upper2) <==> Exposed(c, host, upper) && (n == 0 || answers[0])
  {
    var rules := HomeRules(c, host)[..n];
    if n == 0 {
      upper2 := upper;
    } else {
      var r, lower := rules[n - 1], CoreForward(c) + rest;
      assert rules[..n - 1] == HomeRules(c, host)[..n - 1];
      var middle := HomePass(c, host, t, upper, rest, n - 1, answers[..n - 1]);
      HomeRuleKinds(c, host, r, rest);
      if answers[n - 1] {
        upper2 := middle;
      } else {
        upper2 := [r] + middle;
        assert [r] + (middle + lower) == upper2 + lower;
        assert upper2[1..] == middle;
        ExposedTail(c, host, upper2);
      }
    }
  }

  /**
   Setting a device up for home leaves the firewall's way to the uplink open if and only if
   the check of its guard said "present" and the device was exposed already: the guard then
   stands below a stray accept and is not put on top again.
   */
  lemma HomeSetupSealsUnlessStray(c: Config, host: int, t: Tables, upper: seq<Rule>, rest: seq<Rule>,
                                  answers: seq<bool>, pkt: Packet, sem: Semantics)
    requires c.Valid() && UsableHost(host) && HostRulesOver(c, t, upper, rest)
    requires |answers| == |HomeRules(c, host)| && NeverInvents(t, HomeRules(c, host), false, answers)
    requires FromHostToUplink(c, host, pkt)
    ensures FirstMatch(Applied(t, HomeRules(c, host), false, answers).forward4, pkt, sem) ==
            Some(if answers[0] && Exposed(c, host, upper) then Accept else Drop)
    ensures Truthful(t, HomeRules(c, host), false, answers, AllRules) ==> answers[0] == (UplinkGuard(c, host) in upper)
  {
    assert HomeRules(c, host)[..3] == HomeRules(c, host);
    var upper2 := HomePass(c, host, t, upper, rest, 3, answers);
    UplinkOpenIffExposed(c, host, upper2, rest, pkt, sem);
    if Truthful(t, HomeRules(c, host), false, answers, AllRules) {
      FirstAnswer(t, HomeRules(c, host), false, answers);
      HomeRuleKinds(c, host, UplinkGuard(c, host), rest);
    }
  }

  lemma FirstAnswer(t: Tables, rules: seq<Rule>, remove: bool, answers: seq<bool>)
    requires |rules| == 3 && |answers| == 3 && Truthful(t, rules, remove, answers, AllRules)
    ensures answers[0] == t.Contains(rules[0])
  {
    assert rules[..2][..1] == rules[..1] && answers[..2][..1] == answers[..1];
    assert rules[..1][..0] == [] && answers[..1][..0] == [];
    assert Truthful(t, rules[..2], remove, answers[..2], AllRules);
    assert Truthful(t, rules[..1], remove, answers[..1], AllRules);
  }

  // ---- both lines of defence ----

  /** Routed by another table, and let through to the uplink. */
  ghost predicate LeavesByUplink(s: KState, pkt: Packet, others: OtherTables, sem: Semantics) {
    && Lookup(s, s.policy, pkt.src, others).Some? && Lookup(s, s.policy, pkt.src, others).value.Elsewhere?
    && FirstMatch(s.tables.forward4, pkt, sem) == Some(Accept)
  }

  /**
   In any safe state a home-selected WireGuard peer leaves by the uplink if and only if both
   lines fail: another application's policy rule overtakes its home rule, and a stray accept
   stands above its guard.
   */
  lemma LeavesIffBothLinesFail(c: Config, s: KState, key: string, upper: seq<Rule>, rest: seq<Rule>,
                               pkt: Packet, others: OtherTables, sem: Semantics)
    requires c.Valid() && Safe(s) && key in s.wg && s.wg[key].config == c && s.wg[key].peer.UsesHome()
    requires UsableHost(s.wg[key].peer.host) && HostRulesOver(c, s.tables, upper, rest)
    requires FromHostToUplink(c, s.wg[key].peer.host, pkt)
    ensures LeavesByUplink(s, pkt, others, sem) <==>
            Overtaken(s.policy, pkt.src, others) && Exposed(c, s.wg[key].peer.host, upper)
  {
    hide Exposed, Overtaken, Lookup, FirstMatch;
    var w := s.wg[key];
    assert Fenced(s, w);
    assert SendsHome(HomePolicy(c, w.peer), pkt.src);
    HomeUnlessOvertaken(s, s.policy, pkt.src, others);
    UplinkOpenIffExposed(c, w.peer.host, upper, rest, pkt, sem);
  }

  lemma AppliedOne(t: Tables, r: Rule, remove: bool, present: bool)
    ensures Applied(t, [r], remove, [present]) == Step(t, r, remove, present)
    ensures NeverInvents(t, [r], remove, [present]) <==> (present ==> t.Contains(r))
  {
  }

  lemma AppliedThree(t: Tables, rules: seq<Rule>, remove: bool, answers: seq<bool>)
    requires |rules| == 3 && |answers| == 3
    ensures
      var t1 := Step(t, rules[0], remove, answers[0]);
      var t2 := Step(t1, rules[1], remove, answers[1]);
      && Applied(t, rules, remove, answers) == Step(t2, rules[2], remove, answers[2])
      && (NeverInvents(t, rules, remove, answers) <==>
           (answers[0] ==> t.Contains(rules[0])) && (answers[1] ==> t1.Contains(rules[1])) &&
           (answers[2] ==> t2.Contains(rules[2])))
  {
    assert rules[..2][..1] == rules[..1] && answers[..2][..1] == answers[..1];
    assert rules[..1][..0] == [] && answers[..1][..0] == [];
    assert Applied(t, rules[..1], remove, answers[..1]) == Step(t, rules[0], remove, answers[0]);
    assert Applied(t, rules[..2], remove, answers[..2]) ==
           Step(Step(t, rules[0], remove, answers[0]), rules[1], remove, answers[1]);
    assert NeverInvents(t, rules[..1], remove, answers[..1]) <==> (answers[0] ==> t.Contains(rules[0]));
    assert NeverInvents(t, rules[..2], remove, answers[..2]) <==>
           (answers[0] ==> t.Contains(rules[0])) &&
           (answers[1] ==> Applied(t, rules[..1], remove, answers[..1]).Contains(rules[1]));
  }

  /** The chains after five passes for one device, with two wrong answers among the checks. */
  function Misled(c: Config, host: int, t0: Tables): Tables {
    var home, uplink := HomeRules(c, host), [UplinkAccept(c, host)];
    var t1 := Applied(t0, home, false, [false, false, false]);  // home
    var t2 := Applied(t1, home, true, [false, true, true]);     // withdrawn, but the guard's check was wrong
    var t3 := Applied(t2, uplink, false, [false]);              // uplink
    var t4 := Applied(t3, uplink, true, [false]);               // withdrawn, but the check was wrong
    Applied(t4, home, false, [true, false, false])              // home again
  }

  /**
   Two wrong answers open the firewall's line. A device goes from home to the uplink and back;
   the check of its guard times out on the way there, the check of its accept on the way back.
   Every pass reports success, and its accept stands above its guard.
   */
  lemma WrongChecksExposeHome(c: Config, host: int, rest: seq<Rule>)
    requires c.Valid() && UsableHost(host)
    requires forall r :: r in rest ==> !IsHostRule(c, r)
    ensures
      var home, uplink := HomeRules(c, host), [UplinkAccept(c, host)];
      var t0 := Tables(CoreForward(c) + rest, [], [], []);
      var t1 := Applied(t0, home, false, [false, false, false]);
      var t2 := Applied(t1, home, true, [false, true, true]);
      var t3 := Applied(t2, uplink, false, [false]);
      var t4 := Applied(t3, uplink, true, [false]);
      && NeverInvents(t0, home, false, [false, false, false]) && NeverInvents(t1, home, true, [false, true, true])
      && NeverInvents(t2, uplink, false, [false]) && NeverInvents(t3, uplink, true, [false])
      && NeverInvents(t4, home, false, [true, false, false])
      && Misled(c, host, t0) == t0.(forward4 := StrayUpper(c, host) + (CoreForward(c) + rest))
      && Exposed(c, host, StrayUpper(c, host))
  {
    hide Applied, NeverInvents, UplinkGuard, HomeReplies, HomeOut, UplinkAccept, CoreForward;
    var guard, replies, out, accept := UplinkGuard(c, host), HomeReplies(c, host), HomeOut(c, host), UplinkAccept(c, host);
    var lower := CoreForward(c) + rest;
    HostRulesAtHand(c, host);
    var t0 := Tables(lower, [], [], []);
    var t1 := HomeFirst(c, host, t0);
    var t2 := GuardStays(c, host, t1, lower);
    AppliedOne(t2, accept, false, false);
    var t3 := Applied(t2, [accept], false, [false]);
    AppliedOne(t3, accept, true, false);
    assert t3.forward4 == [accept] + ([guard] + lower);
    var t5 := HomeAgain(c, host, t3, lower);
    var upper := StrayUpper(c, host);
    assert t5.forward4 == upper + lower;
    assert upper[2] == accept && upper[..2] == [out, replies];
  }

  function StrayUpper(c: Config, host: int): seq<Rule> {
    [HomeOut(c, host), HomeReplies(c, host), UplinkAccept(c, host), UplinkGuard(c, host)]
  }

  /** The main table has a route for the packet, and no other table. */
  predicate OnlyMain(table: nat) { table == 254 }

  /** Another application's rule that sends everything to table 254, above the helper's. */
  const FOREIGN_RULE := PolicyRule(100, None, 254, 3)

  /** A safe state with those chains and such a rule, in which a home-selected device uses the uplink. */
  lemma HomeEscapes(c: Config, p: Peer, rest: seq<Rule>, pkt: Packet, sem: Semantics)
    requires c.Valid() && p.UsesHome() && UsableHost(p.host) && FromHostToUplink(c, p.host, pkt)
    requires forall r :: r in rest ==> !IsHostRule(c, r)
    ensures
      var s := KState(Misled(c, p.host, Tables(CoreForward(c) + rest, [], [], [])), Owned,
                      map[p.publicKey := Installed(AllowedIps(c, p), c, p)], [FOREIGN_RULE, HomePolicy(c, p)], true, true, false, {}, true);
      Safe(s) && LeavesByUplink(s, pkt, OnlyMain, sem)
  {
    hide Exposed, Overtaken, Lookup, FirstMatch, Misled, Applied, CoreForward;
    WrongChecksExposeHome(c, p.host, rest);
    HostRulesAtHand(c, p.host);
    var upper, lower := StrayUpper(c, p.host), CoreForward(c) + rest;
    var t0 := Tables(lower, [], [], []);
    var s := KState(Misled(c, p.host, t0), Owned, map[p.publicKey := Installed(AllowedIps(c, p), c, p)],
                    [FOREIGN_RULE, HomePolicy(c, p)], true, true, false, {}, true);
    assert (upper + lower)[3] == UplinkGuard(c, p.host);
    assert s.policy[1] == HomePolicy(c, p);
    assert Safe(s);
    ForeignOvertakes(HomePolicy(c, p), pkt.src, OnlyMain);
    LeavesIffBothLinesFail(c, s, p.publicKey, upper, rest, pkt, OnlyMain, sem);
  }

  lemma ForeignOvertakes(home: PolicyRule, src: int, others: OtherTables)
    requires others(254)
    ensures Overtaken([FOREIGN_RULE, home], src, others)
  {
    assert Diverts([FOREIGN_RULE, home][0], src, others);
  }

  lemma HostRulesAtHand(c: Config, host: int)
    requires UsableHost(host)
    ensures forall r :: r in HomeRules(c, host) || r == UplinkAccept(c, host) ==> IsHostRule(c, r) && r.chain == Forward4
    ensures UplinkGuard(c, host) != UplinkAccept(c, host)
    ensures UplinkGuard(c, host) !in [HomeOut(c, host), HomeReplies(c, host)]
    ensures HomeOut(c, host) != HomeReplies(c, host)
    ensures UplinkAccept(c, host) !in [HomeOut(c, host), HomeReplies(c, host)]
  {
  }

  lemma HomeFirst(c: Config, host: int, t: Tables) returns (t1: Tables)
    requires UsableHost(host)
    ensures t1 == Applied(t, HomeRules(c, host), false, [false, false, false])
    ensures NeverInvents(t, HomeRules(c, host), false, [false, false, false])
    ensures t1 == t.(forward4 := [HomeOut(c, host)] + ([HomeReplies(c, host)] + ([UplinkGuard(c, host)] + t.forward4)))
  {
    hide Applied, NeverInvents;
    AppliedThree(t, HomeRules(c, host), false, [false, false, false]);
    t1 := Applied(t, HomeRules(c, host), false, [false, false, false]);
  }

  lemma GuardStays(c: Config, host: int, t1: Tables, lower: seq<Rule>) returns (t2: Tables)
    requires UsableHost(host)
    requires t1.forward4 == [HomeOut(c, host)] + ([HomeReplies(c, host)] + ([UplinkGuard(c, host)] + lower))
    ensures t2 == Applied(t1, HomeRules(c, host), true, [false, true, true])
    ensures NeverInvents(t1, HomeRules(c, host), true, [false, true, true])
    ensures t2 == t1.(forward4 := [UplinkGuard(c, host)] + lower)
  {
    hide Applied, NeverInvents;
    AppliedThree(t1, HomeRules(c, host), true, [false, true, true]);
    t2 := Applied(t1, HomeRules(c, host), true, [false, true, true]);
    DeleteTwo(HomeOut(c, host), HomeReplies(c, host), [UplinkGuard(c, host)] + lower);
  }

  lemma HomeAgain(c: Config, host: int, t4: Tables, lower: seq<Rule>) returns (t5: Tables)
    requires UsableHost(host)
    requires t4.forward4 == [UplinkAccept(c, host)] + ([UplinkGuard(c, host)] + lower)
    ensures t5 == Applied(t4, HomeRules(c, host), false, [true, false, false])
    ensures NeverInvents(t4, HomeRules(c, host), false, [true, false, false])
    ensures t5 == t4.(forward4 := [HomeOut(c, host)] + ([HomeReplies(c, host)] + t4.forward4))
  {
    hide Applied, NeverInvents;
    AppliedThree(t4, HomeRules(c, host), false, [true, false, false]);
    t5 := Applied(t4, HomeRules(c, host), false, [true, false, false]);
  }

  lemma DeleteTwo(first: Rule, second: Rule, tail: seq<Rule>)
    requires first != second
    ensures second in [first] + ([second] + tail)
    ensures first in Delete([first] + ([second] + tail), second)
    ensures Delete(Delete([first] + ([second] + tail), second), first) == tail
  {
    assert ([first] + ([second] + tail))[1..] == [second] + tail;
    assert ([second] + tail)[1..] == tail;
    assert ([first] + tail)[1..] == tail;
  }
}
