/**
 The helper's passes over the machine's rule lists: applying a list of rules, sweeping a
 chain clean of tagged rules, and sweeping the policy rules and the home table.
 */
module Netfilter {
  import opened Wrappers
  import opened Firewall
  import opened Policy
  import opened Kernel

  // ---- safety of single commands ----

  lemma SafeWithRules(s: KState, t: Tables)
    requires Safe(s)
    requires forall key :: key in s.wg && s.wg[key].peer.UsesHome() &&
                           s.tables.Contains(UplinkGuard(s.wg[key].config, s.wg[key].peer.host)) ==>
               t.Contains(UplinkGuard(s.wg[key].config, s.wg[key].peer.host))
    ensures Safe(s.(tables := t))
  {
    forall key | key in s.wg ensures Fenced(s.(tables := t), s.wg[key]) {
      assert Fenced(s, s.wg[key]);
    }
  }

  /** No fence of an installed peer hangs on one of these rules. */
  ghost predicate Expendable(s: KState, rules: seq<Rule>) {
    forall key :: key in s.wg && s.wg[key].peer.UsesHome() ==>
      UplinkGuard(s.wg[key].config, s.wg[key].peer.host) !in rules
  }

  /** The machine only went on: no state it has been in is forgotten, and no count goes down. */
  twostate predicate Onward(m: Machine)
    reads m
  {
    && old(m.visited) <= m.visited
    && old(m.missedOpenings) <= m.missedOpenings && old(m.deleteFaults) <= m.deleteFaults
    && m.missedOpenings - old(m.missedOpenings) <= m.wrongChecks - old(m.wrongChecks) <= m.faults - old(m.faults)
  }

  /** It went on without installing a peer. */
  twostate predicate Quiet(m: Machine)
    reads m
  {
    Onward(m) && m.installs == old(m.installs)
  }

  /** While WireGuard has no peers, every command that adds none is safe. */
  method RunIdle(m: Machine, cmd: Command) returns (ok: bool)
    requires m.AlwaysSafe() && m.state.wg == map[] && !cmd.WgSet?
    modifies m
    ensures m.AlwaysSafe() && Quiet(m) && m.state.wg == map[]
    ensures m.state == if ok then Apply(old(m.state), cmd) else old(m.state)
    ensures !ok && Enabled(old(m.state), cmd) ==> m.faults > old(m.faults)
    ensures ok ==> m.faults == old(m.faults) && Enabled(old(m.state), cmd)
    ensures !ok && Enabled(old(m.state), cmd) && cmd.LinkDelete? ==> m.deleteFaults > old(m.deleteFaults)
  {
    assert Apply(m.state, cmd).wg == map[];
    ok := m.Exec(cmd);
  }

  function SettingOf(cmd: Command): set<Setting> {
    match cmd
    case Configure(setting) => {setting}
    case WgSetConf(partner) => {Key(partner)}
    case _ => {}
  }

  /** A command that configures an interface without peers. */
  method Adjust(m: Machine, cmd: Command) returns (ok: bool)
    requires m.AlwaysSafe() && m.state.wg == map[] && m.state.link != Absent
    requires cmd.Configure? || cmd.WgSetConf? || cmd.Forward?
    modifies m
    ensures m.AlwaysSafe() && Quiet(m)
    ensures ok ==> m.state == old(m.state).(settings := old(m.state).settings + SettingOf(cmd),
                                            forwarding := old(m.state).forwarding || cmd.Forward?)
    ensures !ok ==> m.state == old(m.state) && m.faults > old(m.faults)
  {
    hide AllSafe;
    ok := RunIdle(m, cmd);
  }

  // ---- applying a list of rules ----

  /** Check one rule and insert or delete it. */
  method ApplyRule(m: Machine, r: Rule, remove: bool) returns (ok: bool, present: bool)
    requires m.AlwaysSafe()
    requires remove ==> Expendable(m.state, [r])
    modifies m
    ensures m.AlwaysSafe() && Quiet(m)
    ensures ok ==> (present ==> old(m.state).tables.Contains(r))
    ensures ok ==> m.state == old(m.state).(tables := Step(old(m.state).tables, r, remove, present))
    ensures !ok ==> m.state == old(m.state)
    ensures m.faults == old(m.faults) ==> ok
    ensures m.wrongChecks == old(m.wrongChecks) ==> present == old(m.state).tables.Contains(r)
    ensures m.missedOpenings == old(m.missedOpenings) && OpensUplink(r) ==> present == old(m.state).tables.Contains(r)
  {
    present := m.Check(r);
    ok := true;
    if remove {
      if present {
        SafeWithRules(m.state, m.state.tables.Remove(r.chain, r));
        ok := m.Exec(DeleteRule(r.chain, r));
      }
    } else if !present {
      SafeWithRules(m.state, m.state.tables.Insert(r));
      ok := m.Exec(InsertRule(r));
    }
  }

  /**
   One pass over `rules`. It stops at the first command that fails; `answers` are the
   presence checks of the rules it got through.
   */
  method ApplyRules(m: Machine, rules: seq<Rule>, remove: bool) returns (ok: bool, ghost answers: seq<bool>)
    requires m.AlwaysSafe()
    requires remove ==> Expendable(m.state, rules)
    modifies m
    ensures m.AlwaysSafe() && Quiet(m)
    ensures |answers| <= |rules| && (ok <==> |answers| == |rules|)
    ensures NeverInvents(old(m.state).tables, rules[..|answers|], remove, answers)
    ensures m.state == old(m.state).(tables := Applied(old(m.state).tables, rules[..|answers|], remove, answers))
    ensures m.faults == old(m.faults) ==> ok
    ensures m.wrongChecks == old(m.wrongChecks) ==> Truthful(old(m.state).tables, rules[..|answers|], remove, answers, AllRules)
    ensures m.missedOpenings == old(m.missedOpenings) ==> Truthful(old(m.state).tables, rules[..|answers|], remove, answers, Openings)
  {
    hide AllSafe;
    answers := [];
    ghost var t := m.state.tables;
    for i := 0 to |rules|
      invariant m.AlwaysSafe() && Quiet(m)
      invariant |answers| == i
      invariant NeverInvents(t, rules[..i], remove, answers)
      invariant m.state == old(m.state).(tables := Applied(t, rules[..i], remove, answers))
      invariant m.wrongChecks == old(m.wrongChecks) ==> Truthful(t, rules[..i], remove, answers, AllRules)
      invariant m.missedOpenings == old(m.missedOpenings) ==> Truthful(t, rules[..i], remove, answers, Openings)
    {
      var present: bool;
      ok, present := ApplyRule(m, rules[i], remove);
      if !ok { return; }
      AppliedStep(t, rules, i, remove, answers, present);
      answers := answers + [present];
    }
    assert rules[..|rules|] == rules;
    ok := true;
  }

  lemma AppliedStep(t: Tables, rules: seq<Rule>, i: nat, remove: bool, answers: seq<bool>, present: bool)
    requires i < |rules| && |answers| == i
    ensures
      var before := Applied(t, rules[..i], remove, answers);
      var next := answers + [present];
      && Applied(t, rules[..i + 1], remove, next) == Step(before, rules[i], remove, present)
      && NeverInvents(t, rules[..i + 1], remove, next) ==
           (NeverInvents(t, rules[..i], remove, answers) && (present ==> before.Contains(rules[i])))
      && forall scope: Scope :: Truthful(t, rules[..i + 1], remove, next, scope) ==
           (Truthful(t, rules[..i], remove, answers, scope) &&
            (scope.Covers(rules[i]) ==> (present <==> before.Contains(rules[i]))))
  {
    assert rules[..i + 1][..i] == rules[..i];
    assert (answers + [present])[..i] == answers;
  }

  // ---- sweeping a chain ----

  type TagTest = Tag -> bool

  predicate CoreOrPeerTag(tag: Tag) {
    tag.CoreTag? || (tag.PeerTag? && UsableHost(tag.host))
  }

  /** The rules whose tag the test rejects, in their order. */
  function Untagged(chain: seq<Rule>, test: TagTest): seq<Rule> {
    if chain == [] then []
    else
      var u := Untagged(chain[..|chain| - 1], test);
      if test(chain[|chain| - 1].tag) then u else u + [chain[|chain| - 1]]
  }

  lemma {:induction false} UntaggedMembers(chain: seq<Rule>, test: TagTest)
    ensures forall r :: r in Untagged(chain, test) <==> r in chain && !test(r.tag)
  {
    if chain != [] {
      UntaggedMembers(chain[..|chain| - 1], test);
      assert chain == chain[..|chain| - 1] + [chain[|chain| - 1]];
    }
  }

  lemma {:induction false} UntaggedConcat(a: seq<Rule>, b: seq<Rule>, test: TagTest)
    ensures Untagged(a + b, test) == Untagged(a, test) + Untagged(b, test)
  {
    if b == [] {
      assert a + b == a;
    } else {
      var c := a + b;
      assert c[..|c| - 1] == a + b[..|b| - 1];
      UntaggedConcat(a, b[..|b| - 1], test);
    }
  }

  lemma {:induction false} UntaggedAll(a: seq<Rule>, test: TagTest)
    requires forall r :: r in a ==> test(r.tag)
    ensures Untagged(a, test) == []
  {
    if a != [] {
      UntaggedAll(a[..|a| - 1], test);
    }
  }

  lemma {:induction false} UntaggedNone(a: seq<Rule>, test: TagTest)
    requires forall r :: r in a ==> !test(r.tag)
    ensures Untagged(a, test) == a
  {
    if a != [] {
      UntaggedNone(a[..|a| - 1], test);
      assert a == a[..|a| - 1] + [a[|a| - 1]];
    }
  }

  /** Deleting by value removes the first occurrence, which is the one being visited. */
  lemma {:induction false} DeleteAfter(done: seq<Rule>, todo: seq<Rule>, r: Rule)
    requires r !in done && todo != [] && todo[0] == r
    ensures Delete(done + todo, r) == done + todo[1..]
  {
    if done == [] {
      assert done + todo == todo;
    } else {
      assert (done + todo)[1..] == done[1..] + todo;
      DeleteAfter(done[1..], todo, r);
    }
  }

  /** A chain part-way through a sweep: the first `n` rules visited, the rest untouched. */
  function SweptTo(chain: seq<Rule>, n: nat, test: TagTest): seq<Rule>
    requires n <= |chain|
  {
    Untagged(chain[..n], test) + chain[n..]
  }

  lemma SweptToEnds(chain: seq<Rule>, test: TagTest)
    ensures SweptTo(chain, 0, test) == chain
    ensures SweptTo(chain, |chain|, test) == Untagged(chain, test)
  {
    assert chain[..|chain|] == chain;
  }

  lemma SweptToStep(chain: seq<Rule>, n: nat, test: TagTest)
    requires n < |chain|
    ensures test(chain[n].tag) ==>
              chain[n] in SweptTo(chain, n, test) &&
              SweptTo(chain, n + 1, test) == Delete(SweptTo(chain, n, test), chain[n])
    ensures !test(chain[n].tag) ==> SweptTo(chain, n + 1, test) == SweptTo(chain, n, test)
  {
    var done, todo := Untagged(chain[..n], test), chain[n..];
    assert chain[..n + 1][..n] == chain[..n];
    assert todo[1..] == chain[n + 1..] && todo[0] == chain[n];
    UntaggedMembers(chain[..n], test);
    if test(chain[n].tag) {
      DeleteAfter(done, todo, chain[n]);
    } else {
      assert done + todo == (done + [chain[n]]) + chain[n + 1..];
    }
  }

  /**
   List a chain and delete every rule whose tag the test accepts. Success leaves exactly
   the other rules, in order, however many copies there were; failure stops part-way.
   */
  method RemoveTaggedRules(m: Machine, chain: ChainId, test: TagTest) returns (ok: bool, visited: nat)
    requires m.AlwaysSafe() && m.state.wg == map[]
    modifies m
    ensures m.AlwaysSafe() && Quiet(m)
    ensures visited <= |old(m.state).tables.Get(chain)|
    ensures m.state == old(m.state).(tables :=
              old(m.state).tables.Put(chain, SweptTo(old(m.state).tables.Get(chain), visited, test)))
    ensures ok ==> SweptTo(old(m.state).tables.Get(chain), visited, test)
                   == Untagged(old(m.state).tables.Get(chain), test)
    ensures !ok ==> m.faults > old(m.faults)
  {
    hide Untagged, SweptTo, AllSafe, Tables.Put, Tables.Get;
    ghost var t := m.state.tables;
    visited := 0;
    SweptToEnds(t.Get(chain), test);
    PutSame(t, chain);
    var listing := m.Read();
    if listing.None? { return false, 0; }
    var lines := listing.value.tables.Get(chain);
    while visited < |lines|
      invariant m.AlwaysSafe() && m.state.wg == map[] && Quiet(m)
      invariant visited <= |lines|
      invariant m.state == old(m.state).(tables := t.Put(chain, SweptTo(lines, visited, test)))
    {
      ok := SweepLine(m, chain, t, lines, visited, test);
      if !ok { return; }
      visited := visited + 1;
    }
    ok := true;
  }

  /** Visit one line of the listing. */
  method SweepLine(m: Machine, chain: ChainId, ghost t: Tables, lines: seq<Rule>, i: nat, test: TagTest) returns (ok: bool)
    requires m.AlwaysSafe() && m.state.wg == map[] && i < |lines|
    requires m.state.tables == t.Put(chain, SweptTo(lines, i, test))
    modifies m
    ensures m.AlwaysSafe() && Quiet(m)
    ensures m.state == if ok then old(m.state).(tables := t.Put(chain, SweptTo(lines, i + 1, test))) else old(m.state)
    ensures !ok ==> m.faults > old(m.faults)
  {
    hide Untagged, SweptTo, AllSafe;
    SweptToStep(lines, i, test);
    ok := true;
    if test(lines[i].tag) {
      ok := RunIdle(m, DeleteRule(chain, lines[i]));
      PutTwice(t, chain, SweptTo(lines, i, test), SweptTo(lines, i + 1, test));
    }
  }

  lemma PutSame(t: Tables, id: ChainId)
    ensures t.Put(id, t.Get(id)) == t
  {
  }

  lemma PutTwice(t: Tables, id: ChainId, first: seq<Rule>, second: seq<Rule>)
    ensures t.Put(id, first).Put(id, second) == t.Put(id, second)
  {
  }

  /** What the tables hold once swept of everything the helper tags. */
  function Swept(t: Tables): Tables {
    var test := (tag: Tag) => CoreOrPeerTag(tag);
    Tables(Untagged(t.forward4, test), Untagged(t.postrouting4, test), Untagged(t.forward6, test), t.input4)
  }

  /** Sweeping keeps every rule that the helper does not tag, as often as it was there, and no other. */
  lemma {:induction false} SweptCounts(chain: seq<Rule>, test: TagTest, r: Rule)
    ensures multiset(Untagged(chain, test))[r] == if test(r.tag) then 0 else multiset(chain)[r]
  {
    if chain != [] {
      var n := |chain| - 1;
      SweptCounts(chain[..n], test, r);
      assert chain == chain[..n] + [chain[n]];
    }
  }

  lemma SweptExactly(t: Tables, r: Rule)
    ensures multiset(Swept(t).Get(r.chain))[r] ==
      if r.chain != Input4 && (r.tag == CoreTag || exists h :: 2 <= h <= 254 && r.tag == PeerTag(h)) then 0
      else multiset(t.Get(r.chain))[r]
  {
    hide Untagged;
    if r.chain != Input4 { SweptCounts(t.Get(r.chain), (tag: Tag) => CoreOrPeerTag(tag), r); }
  }

  /** Teardown is exact on all three chains. */
  method CleanupCoreRules(m: Machine) returns (ok: bool)
    requires m.AlwaysSafe() && m.state.wg == map[]
    modifies m
    ensures m.AlwaysSafe() && Quiet(m)
    ensures ok ==> m.state == old(m.state).(tables := Swept(old(m.state).tables))
    ensures !ok ==> exists t :: m.state == old(m.state).(tables := t)
    ensures !ok ==> m.faults > old(m.faults)
  {
    var test: TagTest := (tag: Tag) => CoreOrPeerTag(tag);
    ghost var t := m.state.tables;
    var n;
    ok, n := RemoveTaggedRules(m, Forward4, test);
    if ok { ok, n := RemoveTaggedRules(m, Postrouting4, test); }
    if ok { ok, n := RemoveTaggedRules(m, Forward6, test); }
    assert m.state == old(m.state).(tables := m.state.tables);
  }

  // ---- sweeping the policy rules and the home table ----

  function OthersOnly(rules: seq<PolicyRule>): seq<PolicyRule> {
    if rules == [] then []
    else
      var s := OthersOnly(rules[..|rules| - 1]);
      if rules[|rules| - 1].IsOurs() then s else s + [rules[|rules| - 1]]
  }

  lemma {:induction false} OthersOnlyMembers(rules: seq<PolicyRule>)
    ensures forall r :: r in OthersOnly(rules) <==> r in rules && !r.IsOurs()
  {
    if rules != [] {
      OthersOnlyMembers(rules[..|rules| - 1]);
      assert rules == rules[..|rules| - 1] + [rules[|rules| - 1]];
    }
  }

  /** Of the policy rules exactly those of the home table under the helper's protocol go, every copy of them. */
  lemma {:induction false} OthersOnlyCounts(rules: seq<PolicyRule>, r: PolicyRule)
    ensures multiset(OthersOnly(rules))[r] == if r.table == 51844 && r.protocol == 242 then 0 else multiset(rules)[r]
  {
    if rules != [] {
      var n := |rules| - 1;
      OthersOnlyCounts(rules[..n], r);
      assert rules == rules[..n] + [rules[n]];
    }
  }

  lemma {:induction false} OthersOnlyConcat(a: seq<PolicyRule>, b: seq<PolicyRule>)
    ensures OthersOnly(a + b) == OthersOnly(a) + OthersOnly(b)
  {
    if b == [] {
      assert a + b == a;
    } else {
      var c := a + b;
      assert c[..|c| - 1] == a + b[..|b| - 1];
      OthersOnlyConcat(a, b[..|b| - 1]);
    }
  }

  lemma {:induction false} OthersOnlyNone(rules: seq<PolicyRule>)
    requires forall r :: r in rules ==> !r.IsOurs()
    ensures OthersOnly(rules) == rules
  {
    if rules != [] {
      OthersOnlyNone(rules[..|rules| - 1]);
      assert rules == rules[..|rules| - 1] + [rules[|rules| - 1]];
    }
  }

  lemma OthersOnlyFirst(rules: seq<PolicyRule>)
    requires rules != []
    ensures OthersOnly(rules) == (if rules[0].IsOurs() then [] else [rules[0]]) + OthersOnly(rules[1..])
  {
    assert [rules[0]] + rules[1..] == rules;
    OthersOnlyConcat([rules[0]], rules[1..]);
    assert OthersOnly([rules[0]]) == if rules[0].IsOurs() then [] else [rules[0]];
  }

  /** Adding a rule of ours moves nobody else's. */
  lemma {:induction false} OthersOnlyAdd(rules: seq<PolicyRule>, r: PolicyRule)
    requires r.IsOurs()
    ensures OthersOnly(AddByPriority(rules, r)) == OthersOnly(rules)
  {
    var after := AddByPriority(rules, r);
    OthersOnlyFirst(after);
    if rules == [] || r.priority < rules[0].priority {
      assert after[1..] == rules;
    } else {
      assert after[1..] == AddByPriority(rules[1..], r);
      OthersOnlyFirst(rules);
      OthersOnlyAdd(rules[1..], r);
    }
  }

  /** Deleting one of ours moves nobody else's. */
  lemma {:induction false} OthersOnlyDelete(rules: seq<PolicyRule>, priority: int, from: Option<int>)
    ensures OthersOnly(DeleteSelected(rules, priority, from)) == OthersOnly(rules)
  {
    if rules != [] {
      OthersOnlyFirst(rules);
      if !Selected(rules[0], priority, from) {
        var after := DeleteSelected(rules, priority, from);
        assert after[1..] == DeleteSelected(rules[1..], priority, from);
        OthersOnlyFirst(after);
        OthersOnlyDelete(rules[1..], priority, from);
      }
    }
  }

  lemma SortedFirst(rules: seq<PolicyRule>)
    requires rules != []
    ensures Sorted(rules) <==> Sorted(rules[1..]) && forall r :: r in rules[1..] ==> rules[0].priority <= r.priority
  {
    var tail := rules[1..];
    assert forall i :: 0 < i < |rules| ==> rules[i] == tail[i - 1];
    if Sorted(tail) && forall r :: r in tail ==> rules[0].priority <= r.priority {
      forall i, j | 0 <= i < j < |rules| ensures rules[i].priority <= rules[j].priority {
        if i > 0 { assert tail[i - 1].priority <= tail[j - 1].priority; } else { assert tail[j - 1] in tail; }
      }
    }
  }

  /** Adding by priority keeps the order in which rules are consulted. */
  lemma {:induction false} SortedAdd(rules: seq<PolicyRule>, r: PolicyRule)
    requires Sorted(rules)
    ensures Sorted(AddByPriority(rules, r))
  {
    hide Sorted;
    var after := AddByPriority(rules, r);
    SortedFirst(after);
    if rules != [] { SortedFirst(rules); }
    if rules == [] || r.priority < rules[0].priority {
      assert after[1..] == rules;
      if rules == [] { NothingSorted(); }
    } else {
      assert after[1..] == AddByPriority(rules[1..], r);
      SortedAdd(rules[1..], r);
    }
  }

  lemma NothingSorted()
    ensures Sorted([])
  {
  }

  lemma {:induction false} SortedDelete(rules: seq<PolicyRule>, priority: int, from: Option<int>)
    requires Sorted(rules)
    ensures Sorted(DeleteSelected(rules, priority, from))
  {
    hide Sorted;
    if rules != [] {
      SortedFirst(rules);
      if !Selected(rules[0], priority, from) {
        var after := DeleteSelected(rules, priority, from);
        assert after[1..] == DeleteSelected(rules[1..], priority, from);
        SortedFirst(after);
        SortedDelete(rules[1..], priority, from);
      }
    } else {
      NothingSorted();
    }
  }

  lemma {:induction false} SortedOthers(rules: seq<PolicyRule>)
    requires Sorted(rules)
    ensures Sorted(OthersOnly(rules))
  {
    if rules != [] {
      var n := |rules| - 1;
      var before := OthersOnly(rules[..n]);
      SortedOthers(rules[..n]);
      OthersOnlyMembers(rules[..n]);
      SortedLast(before, rules[n]) by {
        assert forall r :: r in rules[..n] ==> r.priority <= rules[n].priority;
      }
    }
  }

  lemma SortedLast(rules: seq<PolicyRule>, r: PolicyRule)
    requires Sorted(rules) && forall q :: q in rules ==> q.priority <= r.priority
    ensures Sorted(rules + [r])
  {
  }

  /** No policy rule of ours occurs twice. */
  ghost predicate OursOnce(rules: seq<PolicyRule>) {
    forall i, j :: 0 <= i < j < |rules| && rules[i].IsOurs() ==> rules[i] != rules[j]
  }

  lemma OursOnceFirst(rules: seq<PolicyRule>)
    requires rules != []
    ensures OursOnce(rules) <==> OursOnce(rules[1..]) && (rules[0].IsOurs() ==> rules[0] !in rules[1..])
  {
    var tail := rules[1..];
    assert forall i :: 0 < i < |rules| ==> rules[i] == tail[i - 1];
    if OursOnce(tail) && (rules[0].IsOurs() ==> rules[0] !in tail) {
      forall i, j | 0 <= i < j < |rules| && rules[i].IsOurs() ensures rules[i] != rules[j] {
        if i > 0 { assert tail[i - 1] != tail[j - 1]; } else { assert tail[j - 1] in tail; }
      }
    }
  }

  lemma {:induction false} OursOnceAdd(rules: seq<PolicyRule>, r: PolicyRule)
    requires OursOnce(rules) && r !in rules
    ensures OursOnce(AddByPriority(rules, r))
  {
    hide OursOnce;
    var after := AddByPriority(rules, r);
    OursOnceFirst(after);
    if rules == [] || r.priority < rules[0].priority {
      assert after[1..] == rules;
    } else {
      assert after[1..] == AddByPriority(rules[1..], r);
      OursOnceFirst(rules);
      OursOnceAdd(rules[1..], r);
    }
  }

  /** Deleting by priority and source leaves no copy. */
  lemma {:induction false} OursOnceDelete(rules: seq<PolicyRule>, priority: int, from: Option<int>)
    requires OursOnce(rules)
    ensures OursOnce(DeleteSelected(rules, priority, from))
    ensures from.Some? ==> forall r :: r in DeleteSelected(rules, priority, from) ==> !Selected(r, priority, from)
  {
    hide OursOnce;
    if rules != [] {
      OursOnceFirst(rules);
      if !Selected(rules[0], priority, from) {
        var after := DeleteSelected(rules, priority, from);
        assert after[1..] == DeleteSelected(rules[1..], priority, from);
        OursOnceFirst(after);
        OursOnceDelete(rules[1..], priority, from);
      } else {
        assert forall r :: Selected(r, priority, from) && from.Some? ==> r == rules[0];
      }
    }
  }

  function PolicySweptTo(rules: seq<PolicyRule>, n: nat): seq<PolicyRule>
    requires n <= |rules|
  {
    OthersOnly(rules[..n]) + rules[n..]
  }

  lemma PolicySweptToEnds(rules: seq<PolicyRule>)
    ensures PolicySweptTo(rules, 0) == rules && PolicySweptTo(rules, |rules|) == OthersOnly(rules)
  {
    assert rules[..|rules|] == rules;
  }

  lemma PolicySweptToStep(rules: seq<PolicyRule>, n: nat)
    requires n < |rules|
    ensures rules[n].IsOurs() ==>
              Deletable(PolicySweptTo(rules, n), rules[n].priority, None) &&
              PolicySweptTo(rules, n + 1) == DeleteSelected(PolicySweptTo(rules, n), rules[n].priority, None)
    ensures !rules[n].IsOurs() ==> PolicySweptTo(rules, n + 1) == PolicySweptTo(rules, n)
  {
    var done, todo := OthersOnly(rules[..n]), rules[n..];
    assert rules[..n + 1][..n] == rules[..n];
    assert todo[1..] == rules[n + 1..] && todo[0] == rules[n];
    OthersOnlyMembers(rules[..n]);
    if rules[n].IsOurs() {
      DeleteNextOurs(done, todo);
      assert rules[n] in done + todo && Selected(rules[n], rules[n].priority, None);
    } else {
      assert done + todo == (done + [rules[n]]) + rules[n + 1..];
    }
  }

  lemma {:induction false} DeleteNextOurs(done: seq<PolicyRule>, todo: seq<PolicyRule>)
    requires todo != [] && todo[0].IsOurs()
    requires forall r :: r in done ==> !r.IsOurs()
    ensures DeleteSelected(done + todo, todo[0].priority, None) == done + todo[1..]
  {
    if done == [] {
      assert done + todo == todo;
    } else {
      assert (done + todo)[1..] == done[1..] + todo;
      DeleteNextOurs(done[1..], todo);
    }
  }

  /** Every policy rule of ours goes; rules of other applications stay in place. */
  method CleanupPolicy(m: Machine) returns (ok: bool)
    requires m.AlwaysSafe() && m.state.wg == map[]
    modifies m
    ensures m.AlwaysSafe() && Quiet(m)
    ensures m.state == old(m.state).(policy := m.state.policy)
    ensures ok ==> m.state.policy == OthersOnly(old(m.state).policy)
    ensures !ok ==> m.faults > old(m.faults)
  {
    hide OthersOnly, PolicySweptTo;
    var listing := m.Read();
    if listing.None? { return false; }
    var rules := listing.value.policy;
    PolicySweptToEnds(rules);
    for i := 0 to |rules|
      invariant m.AlwaysSafe() && Quiet(m)
      invariant m.state == old(m.state).(policy := PolicySweptTo(rules, i))
    {
      PolicySweptToStep(rules, i);
      if rules[i].IsOurs() {
        ok := RunIdle(m, PolicyDelete(rules[i].priority, None));
        if !ok { return; }
      }
    }
    ok := true;
  }

  /** The policy rules, then our routes in the home table. */
  method CleanupHomeRouting(m: Machine) returns (ok: bool)
    requires m.AlwaysSafe() && m.state.wg == map[]
    modifies m
    ensures m.AlwaysSafe() && Quiet(m)
    ensures ok ==> m.state == old(m.state).(policy := OthersOnly(old(m.state).policy),
                                            unreachable := false, viaTunnel := false)
    ensures m.state == old(m.state).(policy := m.state.policy, unreachable := m.state.unreachable,
                                     viaTunnel := m.state.viaTunnel)
    ensures !ok ==> m.faults > old(m.faults)
  {
    hide OthersOnly;
    ok := CleanupPolicy(m);
    if !ok { return; }
    var listing := m.Read();
    if listing.None? { return false; }
    if listing.value.unreachable || listing.value.viaTunnel {
      ok := RunIdle(m, RouteFlush);
    }
  }

  /** Refuse a table in use by somebody else, then put the terminal route in place. */
  method PrepareHomeRouting(m: Machine) returns (ok: bool)
    requires m.AlwaysSafe() && m.state.wg == map[]
    modifies m
    ensures m.AlwaysSafe() && Quiet(m)
    ensures ok ==> !m.state.foreignRoutes && m.state == old(m.state).(unreachable := true)
    ensures !ok ==> m.state == old(m.state)
    ensures !ok ==> m.state.foreignRoutes || m.faults > old(m.faults)
  {
    var listing := m.Read();
    if listing.None? || listing.value.foreignRoutes { return false; }
    ok := RunIdle(m, RouteUnreachable);
  }
}
