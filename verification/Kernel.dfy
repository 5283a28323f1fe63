/**
 The machine the helper drives: filter chains, the WireGuard interface and its peers,
 the policy rules and the dedicated home routing table. Every command may fail, and a
 failed command changes nothing. The object remembers every state it has been in, so
 that whatever a crash between two commands leaves behind is among them.
 */
module Kernel {
  import opened Wrappers
  import opened Firewall
  import opened Policy

  const HOME_TABLE: nat := 51844
  const ROUTE_PROTOCOL: nat := 242

  datatype Link = Absent | Unowned | Owned

  /** Allowed addresses of a WireGuard peer: everything, or one device's pair. */
  datatype Allowed = Everything | Device(v4: int, v6: int)

  function AllowedIps(c: Config, p: Peer): Allowed {
    if p.service then Everything else Device(c.Address(p.host), p.host)
  }

  /** The addresses a peer may send from, and is sent to; a service carries all of IPv4 and nothing else. */
  predicate Admits4(a: Allowed, address: int) { a.Everything? || a.v4 == address }

  predicate Admits6(a: Allowed, host: int) { a.Device? && a.v6 == host }

  /** A WireGuard peer, with the configuration and record it was installed for. */
  datatype Installed = Installed(allowed: Allowed, config: Config, peer: Peer)

  datatype PolicyRule = PolicyRule(priority: int, from: Option<int>, table: nat, protocol: nat) {
    predicate Selects(src: int) { from.None? || from.value == src }

    /** Written by the helper, or indistinguishable from what it writes. */
    predicate IsOurs() { table == HOME_TABLE && protocol == ROUTE_PROTOCOL }
  }

  function PriorityOf(host: int): int { 18800 + host }

  function HomePolicy(c: Config, p: Peer): PolicyRule {
    PolicyRule(PriorityOf(p.host), Some(c.Address(p.host)), HOME_TABLE, ROUTE_PROTOCOL)
  }

  /** What is configured on the interface itself; a key may come with the one peer it is for. */
  datatype Setting = Address4(address: int, bits: nat) | Address6 | Key(partner: Option<Block>) | Running | Route(network: Block)

  /** The dedicated table holds at most our two defaults, and possibly somebody else's routes. */
  datatype KState = KState(tables: Tables, link: Link, wg: map<string, Installed>, policy: seq<PolicyRule>,
                           unreachable: bool, viaTunnel: bool, foreignRoutes: bool,
                           settings: set<Setting>, forwarding: bool)

  datatype Command =
    | InsertRule(rule: Rule)
    | DeleteRule(chain: ChainId, deleted: Rule)
    | LinkAdd
    | LinkAlias
    | LinkDelete
    | Configure(setting: Setting)
    | WgSetConf(partner: Option<Block>)  // key and port; replaces the whole peer list
    | Forward                 // let the kernel forward IPv4
    | WgSet(key: string, installed: Installed)
    | WgRemove(key: string)
    | PolicyAdd(policyRule: PolicyRule)
    | PolicyDelete(priority: int, from: Option<int>)
    | RouteUnreachable        // terminal unreachable default, metric 32767
    | RouteTunnel             // default through the tunnel, metric 1
    | RouteFlush              // our routes in the home table

  predicate Selected(r: PolicyRule, priority: int, from: Option<int>) {
    r.IsOurs() && r.priority == priority && (from.Some? ==> r.from == from)
  }

  /** Rules are kept by priority, a new one after its equals. */
  function AddByPriority(rules: seq<PolicyRule>, r: PolicyRule): (s: seq<PolicyRule>)
    ensures forall x :: x in s <==> x == r || x in rules
  {
    if rules == [] || r.priority < rules[0].priority then [r] + rules
    else [rules[0]] + AddByPriority(rules[1..], r)
  }

  function DeleteSelected(rules: seq<PolicyRule>, priority: int, from: Option<int>): (s: seq<PolicyRule>)
    ensures forall x :: x in s ==> x in rules
    ensures forall x :: x in rules && !Selected(x, priority, from) ==> x in s
  {
    if rules == [] then []
    else if Selected(rules[0], priority, from) then rules[1..]
    else [rules[0]] + DeleteSelected(rules[1..], priority, from)
  }

  /** The order in which the kernel consults policy rules. */
  ghost predicate Sorted(rules: seq<PolicyRule>) {
    forall i, j :: 0 <= i < j < |rules| ==> rules[i].priority <= rules[j].priority
  }

  predicate Deletable(rules: seq<PolicyRule>, priority: int, from: Option<int>) {
    exists r :: r in rules && Selected(r, priority, from)
  }

  predicate Enabled(s: KState, cmd: Command) {
    match cmd
    case InsertRule(_) => true
    case DeleteRule(chain, r) => r in s.tables.Get(chain)
    case LinkAdd => s.link == Absent
    case LinkAlias => s.link != Absent
    case LinkDelete => s.link != Absent
    case Configure(_) => s.link != Absent
    case WgSetConf(_) => s.link != Absent
    case Forward => true
    case WgSet(_, _) => s.link != Absent
    case WgRemove(_) => s.link != Absent
    case PolicyAdd(r) => r !in s.policy
    case PolicyDelete(priority, from) => Deletable(s.policy, priority, from)
    case RouteUnreachable => true
    case RouteTunnel => s.link != Absent
    case RouteFlush => true
  }

  function Apply(s: KState, cmd: Command): KState {
    match cmd
    case InsertRule(r) => s.(tables := s.tables.Insert(r))
    case DeleteRule(chain, r) => s.(tables := s.tables.Remove(chain, r))
    case LinkAdd => s.(link := Unowned, settings := {})
    case LinkAlias => s.(link := Owned)
    case LinkDelete => s.(link := Absent, wg := map[], viaTunnel := false, settings := {})
    case Configure(setting) => s.(settings := s.settings + {setting})
    case WgSetConf(partner) => s.(wg := map[], settings := s.settings + {Key(partner)})
    case Forward => s.(forwarding := true)
    case WgSet(key, installed) => s.(wg := s.wg[key := installed])
    case WgRemove(key) => s.(wg := s.wg - {key})
    case PolicyAdd(r) => s.(policy := AddByPriority(s.policy, r))
    case PolicyDelete(priority, from) => s.(policy := DeleteSelected(s.policy, priority, from))
    case RouteUnreachable => s.(unreachable := true)
    case RouteTunnel => s.(viaTunnel := true)
    case RouteFlush => s.(unreachable := false, viaTunnel := false)
  }

  // ---- crash-point safety ----

  /** A home-selected peer is fenced: its source rule, its uplink guard and the terminal route stand. */
  predicate Fenced(s: KState, w: Installed) {
    w.peer.UsesHome() ==>
      && HomePolicy(w.config, w.peer) in s.policy
      && s.tables.Contains(UplinkGuard(w.config, w.peer.host))
      && s.unreachable && !s.foreignRoutes
  }

  ghost predicate Safe(s: KState) {
    && (s.link == Absent ==> s.wg == map[] && s.settings == {})
    && (forall key :: key in s.wg ==> Fenced(s, s.wg[key]))
  }

  datatype Destination = Tunnel | Unreachable | Elsewhere(table: nat)

  /** Which tables other than the home table have a route for the packet at hand. */
  type OtherTables = nat -> bool

  /** Where a table sends a packet; None lets the search go on to the next policy rule. */
  function TableRoute(s: KState, table: nat, others: OtherTables): Option<Destination> {
    if table != HOME_TABLE then (if others(table) then Some(Elsewhere(table)) else None)
    else if s.foreignRoutes then Some(Elsewhere(table))
    else if s.viaTunnel then Some(Tunnel)
    else if s.unreachable then Some(Unreachable)
    else None
  }

  /** Policy routing: the first matching rule whose table answers. */
  function Lookup(s: KState, rules: seq<PolicyRule>, src: int, others: OtherTables): Option<Destination> {
    if rules == [] then None
    else if rules[0].Selects(src) && TableRoute(s, rules[0].table, others).Some? then
      TableRoute(s, rules[0].table, others)
    else Lookup(s, rules[1..], src, others)
  }

  predicate SendsHome(r: PolicyRule, src: int) { r.table == HOME_TABLE && r.Selects(src) }

  predicate Diverts(r: PolicyRule, src: int, others: OtherTables) {
    r.table != HOME_TABLE && others(r.table) && r.Selects(src)
  }

  /** A rule for another table that has a route stands above every rule that sends the source home. */
  ghost predicate Overtaken(rules: seq<PolicyRule>, src: int, others: OtherTables) {
    exists i :: 0 <= i < |rules| && Diverts(rules[i], src, others) && forall j :: 0 <= j < i ==> !SendsHome(rules[j], src)
  }

  lemma OvertakenTail(rules: seq<PolicyRule>, src: int, others: OtherTables)
    requires rules != []
    ensures Overtaken(rules, src, others) <==>
            Diverts(rules[0], src, others) || (!SendsHome(rules[0], src) && Overtaken(rules[1..], src, others))
  {
    var tail := rules[1..];
    assert forall i :: 0 < i < |rules| ==> rules[i] == tail[i - 1];
    if Overtaken(rules, src, others) {
      var i :| 0 <= i < |rules| && Diverts(rules[i], src, others) && forall j :: 0 <= j < i ==> !SendsHome(rules[j], src);
      if i > 0 {
        assert Diverts(tail[i - 1], src, others);
        assert forall j :: 0 <= j < i - 1 ==> tail[j] == rules[j + 1];
      }
    }
    if !SendsHome(rules[0], src) && Overtaken(tail, src, others) {
      var i :| 0 <= i < |tail| && Diverts(tail[i], src, others) && forall j :: 0 <= j < i ==> !SendsHome(tail[j], src);
      assert Diverts(rules[i + 1], src, others);
    }
  }

  /**
   The meaning of the fence: a source that some rule sends home goes to the tunnel or
   nowhere, unless another table's rule overtakes it, and then it goes elsewhere.
   */
  lemma {:induction false} HomeUnlessOvertaken(s: KState, rules: seq<PolicyRule>, src: int, others: OtherTables)
    requires s.unreachable && !s.foreignRoutes
    requires exists r :: r in rules && SendsHome(r, src)
    ensures Lookup(s, rules, src, others) in {Some(Tunnel), Some(Unreachable)} <==> !Overtaken(rules, src, others)
    ensures !Overtaken(rules, src, others) ==> Lookup(s, rules, src, others) == Some(if s.viaTunnel then Tunnel else Unreachable)
    ensures Overtaken(rules, src, others) ==> Lookup(s, rules, src, others).Some? && Lookup(s, rules, src, others).value.Elsewhere?
  {
    OvertakenTail(rules, src, others);
    if !SendsHome(rules[0], src) && !Diverts(rules[0], src, others) {
      var r :| r in rules && SendsHome(r, src);
      assert r in rules[1..];
      HomeUnlessOvertaken(s, rules[1..], src, others);
    }
  }

  ghost predicate AllSafe(visited: set<KState>) { forall s :: s in visited ==> Safe(s) }

  lemma NoLinkNoPeers(s: KState, cmd: Command)
    requires Safe(s) && s.link == Absent && Enabled(s, cmd) && cmd != LinkAdd
    ensures Safe(Apply(s, cmd)) && Apply(s, cmd).link == Absent
  {
  }

  /** Commands run one after the other, of which those marked were carried out. */
  ghost function After(s: KState, cmds: seq<Command>, done: seq<bool>): KState
    requires |done| == |cmds|
  {
    if cmds == [] then s
    else
      var n := |cmds| - 1;
      var before := After(s, cmds[..n], done[..n]);
      if done[n] then Apply(before, cmds[n]) else before
  }

  class Machine {
    var state: KState
    ghost var visited: set<KState>   // every state it has been in
    ghost var installs: seq<Installed>
    ghost var faults: nat            // commands that failed though they could have been carried out
    ghost var wrongChecks: nat       // present rules reported absent
    ghost var missedOpenings: nat    // those among them that open the uplink
    ghost var deleteFaults: nat      // failed deletions of the interface

    /** Every state it has been in is safe, so a crash anywhere leaves a safe one. */
    ghost predicate AlwaysSafe()
      reads this
    {
      state in visited && AllSafe(visited)
    }

    lemma SafeNow()
      requires AlwaysSafe()
      ensures Safe(state)
    {
    }

    /**
     Whatever state a crash leaves, a home-selected peer in WireGuard has its source rule, its
     uplink guard and the terminal route; and it is routed to the tunnel or nowhere if and only
     if no other application's rule overtakes its own.
     */
    lemma HomeAtEveryCrash(s: KState, key: string, others: OtherTables)
      requires AlwaysSafe() && s in visited && key in s.wg && s.wg[key].peer.UsesHome()
      ensures Fenced(s, s.wg[key])
      ensures var src := s.wg[key].config.Address(s.wg[key].peer.host);
        Lookup(s, s.policy, src, others) in {Some(Tunnel), Some(Unreachable)} <==> !Overtaken(s.policy, src, others)
    {
      var w := s.wg[key];
      assert Fenced(s, w);
      assert SendsHome(HomePolicy(w.config, w.peer), w.config.Address(w.peer.host));
      HomeUnlessOvertaken(s, s.policy, w.config.Address(w.peer.host), others);
    }

    constructor (initial: KState)
      requires Safe(initial)
      ensures state == initial && visited == {initial} && AlwaysSafe()
      ensures installs == [] && faults == 0 && wrongChecks == 0 && missedOpenings == 0 && deleteFaults == 0
    {
      state, visited, installs := initial, {initial}, [];
      faults, wrongChecks, missedOpenings, deleteFaults := 0, 0, 0, 0;
    }

    /** Run one command. The caller shows that its effect keeps the machine safe. */
    method Exec(cmd: Command) returns (ok: bool)
      requires AlwaysSafe()
      requires Enabled(state, cmd) ==> Safe(Apply(state, cmd))
      modifies this
      ensures AlwaysSafe() && visited == old(visited) + {state}
      ensures ok ==> Enabled(old(state), cmd) && state == Apply(old(state), cmd) && faults == old(faults)
      ensures !ok ==> state == old(state)
      ensures !ok ==> faults == old(faults) + if Enabled(old(state), cmd) then 1 else 0
      ensures wrongChecks == old(wrongChecks) && missedOpenings == old(missedOpenings)
      ensures deleteFaults == old(deleteFaults) + if !ok && Enabled(old(state), cmd) && cmd.LinkDelete? then 1 else 0
      ensures installs == old(installs) + if ok && cmd.WgSet? then [cmd.installed] else []
    {
      var fault: bool := *;
      ok := !fault && Enabled(state, cmd);
      if ok {
        state := Apply(state, cmd);
        installs := installs + if cmd.WgSet? then [cmd.installed] else [];
      } else if Enabled(state, cmd) {
        faults := faults + 1;
        if cmd.LinkDelete? { deleteFaults := deleteFaults + 1; }
      }
      visited := visited + {state};
    }

    /**
     Whatever a request still in flight runs once the interface is deleted, no peer can come
     back, so every state stays safe. A command that is not `done` had failed.
     */
    method Afterwards(cmds: seq<Command>) returns (ghost done: seq<bool>)
      requires AlwaysSafe() && state.link == Absent && LinkAdd !in cmds
      modifies this
      ensures AlwaysSafe() && state.link == Absent && state.wg == map[] && old(visited) <= visited
      ensures |done| == |cmds| && state == After(old(state), cmds, done)
      ensures faults == old(faults) ==> forall i :: 0 <= i < |cmds| ==> done[i] == Enabled(After(old(state), cmds[..i], done[..i]), cmds[i])
    {
      hide AllSafe;
      SafeNow();
      done := [];
      for i := 0 to |cmds|
        invariant AlwaysSafe() && state.link == Absent && state.wg == map[] && old(visited) <= visited
        invariant |done| == i && state == After(old(state), cmds[..i], done) && old(faults) <= faults
        invariant faults == old(faults) ==> forall k :: 0 <= k < i ==> done[k] == Enabled(After(old(state), cmds[..k], done[..k]), cmds[k])
      {
        SafeNow();
        if Enabled(state, cmds[i]) { NoLinkNoPeers(state, cmds[i]); }
        var ok := Exec(cmds[i]);
        assert cmds[..i + 1][..i] == cmds[..i] && (done + [ok])[..i] == done;
        assert forall k :: 0 <= k < i ==> (done + [ok])[..k] == done[..k];
        done := done + [ok];
      }
      assert cmds[..|cmds|] == cmds;
    }

    /** -C: may wrongly report a present rule absent (a timeout), never the reverse. */
    method Check(r: Rule) returns (present: bool)
      modifies this`faults, this`wrongChecks, this`missedOpenings
      ensures present ==> state.tables.Contains(r)
      ensures var missed := if state.tables.Contains(r) && !present then 1 else 0;
        && faults == old(faults) + missed && wrongChecks == old(wrongChecks) + missed
        && missedOpenings == old(missedOpenings) + if OpensUplink(r) then missed else 0
    {
      var fault: bool := *;
      present := !fault && state.tables.Contains(r);
      if fault && state.tables.Contains(r) {
        faults, wrongChecks := faults + 1, wrongChecks + 1;
        missedOpenings := missedOpenings + if OpensUplink(r) then 1 else 0;
      }
    }

    /** A listing command; None when it failed. */
    method Read() returns (listing: Option<KState>)
      modifies this`faults
      ensures listing.Some? ==> listing.value == state && faults == old(faults)
      ensures listing.None? ==> faults == old(faults) + 1
    {
      var fault: bool := *;
      if fault {
        faults := faults + 1;
        return None;
      }
      return Some(state);
    }
  }
}
