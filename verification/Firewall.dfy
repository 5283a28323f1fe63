/**
 First-match packet filtering as the VPN helper uses it: a chain is a list of
 rules, the helper asks whether a rule is present (-C), inserts at the head
 (-I chain 1) and deletes the first equal rule (-D).
 */
module Firewall {
  import opened Wrappers

  type Iface = string

  /** The tunnel interface the helper owns. */
  const TUNNEL: Iface := "epwg0"

  /** A block of consecutive addresses: the networks and hosts rules speak of. */
  datatype Block = Block(first: int, size: nat) {
    predicate Has(address: int) { first <= address < first + size }
  }

  datatype AddressMatch = Any | Within(block: Block) | Outside(block: Block) {
    predicate Accepts(address: int) {
      match this
      case Any => true
      case Within(b) => b.Has(address)
      case Outside(b) => !b.Has(address)
    }
  }

  datatype ChainId = Forward4 | Postrouting4 | Forward6 | Input4

  /** The comment a rule carries; Other is every comment the helper does not write. */
  datatype Tag = CoreTag | PeerTag(host: int) | SiteTag | Other(text: string)

  datatype Target = Accept | Drop | Masquerade

  /** Managed rules have the matches the helper writes; anything else is Foreign. */
  datatype Rule =
    | Managed(chain: ChainId, tag: Tag, inIf: Option<Iface>, outIf: Option<Iface>,
              src: AddressMatch, dst: AddressMatch, established: bool, port: Option<nat>, target: Target)
    | Foreign(chain: ChainId, tag: Tag, id: nat)

  /** A packet; `port` is its destination port when it is TCP. */
  datatype Packet = Packet(inIf: Iface, outIf: Iface, src: int, dst: int, established: bool, port: Option<nat>) {
    predicate TouchesTunnel() { inIf == TUNNEL || outIf == TUNNEL }
  }

  /** What a foreign rule decides about a packet, if it decides at all. */
  type Semantics = (nat, Packet) -> Option<Target>

  predicate IfaceMatches(want: Option<Iface>, have: Iface) { want.None? || want.value == have }

  predicate Matches(r: Rule, pkt: Packet)
    requires r.Managed?
  {
    && IfaceMatches(r.inIf, pkt.inIf)
    && IfaceMatches(r.outIf, pkt.outIf)
    && r.src.Accepts(pkt.src)
    && r.dst.Accepts(pkt.dst)
    && (r.established ==> pkt.established)
    && (r.port.Some? ==> pkt.port == r.port)
  }

  function Decision(r: Rule, pkt: Packet, sem: Semantics): Option<Target> {
    match r
    case Managed(_, _, _, _, _, _, _, _, target) => if Matches(r, pkt) then Some(target) else None
    case Foreign(_, _, id) => sem(id, pkt)
  }

  /** The verdict of the first rule that decides; None leaves it to the chain's policy. */
  function FirstMatch(chain: seq<Rule>, pkt: Packet, sem: Semantics): Option<Target> {
    if chain == [] then None
    else
      var d := Decision(chain[0], pkt, sem);
      if d.Some? then d else FirstMatch(chain[1..], pkt, sem)
  }

  /** -D: the first rule equal to `r` goes, everything else keeps its place. */
  function Delete(chain: seq<Rule>, r: Rule): (d: seq<Rule>)
    ensures r !in chain ==> d == chain
    ensures r in chain ==> |d| == |chain| - 1
    ensures forall x :: x in d ==> x in chain
    ensures forall x :: x != r && x in chain ==> x in d
  {
    if chain == [] then []
    else if chain[0] == r then chain[1..]
    else [chain[0]] + Delete(chain[1..], r)
  }

  ghost predicate NoDuplicates(chain: seq<Rule>) {
    forall i, j :: 0 <= i < j < |chain| ==> chain[i] != chain[j]
  }

  lemma {:induction false} DeleteFromUpper(upper: seq<Rule>, lower: seq<Rule>, r: Rule)
    requires r in upper || r !in lower
    ensures Delete(upper + lower, r) == Delete(upper, r) + lower
  {
    if upper == [] {
      assert upper + lower == lower;
    } else {
      assert (upper + lower)[1..] == upper[1..] + lower;
      if upper[0] != r {
        DeleteFromUpper(upper[1..], lower, r);
        assert [upper[0]] + (Delete(upper[1..], r) + lower) == ([upper[0]] + Delete(upper[1..], r)) + lower;
      }
    }
  }

  /** A rule that lets one device out of the tunnel to another interface. */
  predicate OpensUplink(r: Rule) {
    && r.Managed? && r.tag.PeerTag? && r.target == Accept
    && r.inIf == Some(TUNNEL) && r.outIf.Some? && r.outIf != Some(TUNNEL)
  }

  /** The rules a statement is about: all of them, or those that open the uplink. */
  datatype Scope = AllRules | Openings {
    predicate Covers(r: Rule) { AllRules? || OpensUplink(r) }
  }

  /** No rule of the scope occurs twice. */
  ghost predicate Once(chain: seq<Rule>, scope: Scope) {
    forall i, j :: 0 <= i < j < |chain| && scope.Covers(chain[i]) ==> chain[i] != chain[j]
  }

  /** Deleting a rule that occurs once removes it altogether. */
  lemma {:induction false} DeleteOnce(chain: seq<Rule>, r: Rule, scope: Scope)
    requires Once(chain, scope)
    ensures Once(Delete(chain, r), scope) && (scope.Covers(r) ==> r !in Delete(chain, r))
  {
    if chain != [] {
      var rest := chain[1..];
      assert Once(rest, scope);
      if chain[0] == r {
        assert scope.Covers(r) ==> forall k :: 0 <= k < |rest| ==> rest[k] != chain[0];
      } else {
        DeleteOnce(rest, r, scope);
        var kept := Delete(rest, r);
        assert forall k :: 0 <= k < |kept| ==> kept[k] in rest;
        assert Delete(chain, r) == [chain[0]] + kept;
      }
    }
  }

  /** If every rule of `upper` that decides `pkt` decides `t`, then so does the chain. */
  lemma {:induction false} FirstMatchAgrees(upper: seq<Rule>, lower: seq<Rule>, pkt: Packet, sem: Semantics, t: Target)
    requires forall r :: r in upper ==> Decision(r, pkt, sem) in {None, Some(t)}
    ensures FirstMatch(upper + lower, pkt, sem)
         == if exists r :: r in upper && Decision(r, pkt, sem) == Some(t) then Some(t)
            else FirstMatch(lower, pkt, sem)
  {
    if upper == [] {
      assert upper + lower == lower;
    } else {
      assert (upper + lower)[1..] == upper[1..] + lower;
      FirstMatchAgrees(upper[1..], lower, pkt, sem, t);
      assert forall r :: r in upper <==> r == upper[0] || r in upper[1..];
    }
  }

  /** The four chains the helper writes to. */
  datatype Tables = Tables(forward4: seq<Rule>, postrouting4: seq<Rule>, forward6: seq<Rule>, input4: seq<Rule>) {
    function Get(id: ChainId): seq<Rule> {
      match id
      case Forward4 => forward4
      case Postrouting4 => postrouting4
      case Forward6 => forward6
      case Input4 => input4
    }

    function Put(id: ChainId, chain: seq<Rule>): (t: Tables)
      ensures t.Get(id) == chain
      ensures forall other :: other != id ==> t.Get(other) == Get(other)
    {
      match id
      case Forward4 => this.(forward4 := chain)
      case Postrouting4 => this.(postrouting4 := chain)
      case Forward6 => this.(forward6 := chain)
      case Input4 => this.(input4 := chain)
    }

    predicate Contains(r: Rule) { r in Get(r.chain) }

    function Insert(r: Rule): Tables { Put(r.chain, [r] + Get(r.chain)) }

    function Remove(id: ChainId, r: Rule): Tables { Put(id, Delete(Get(id), r)) }
  }

  /** One rule of a pass, given what its presence check answered. */
  function Step(t: Tables, r: Rule, remove: bool, present: bool): Tables {
    if remove then (if present then t.Remove(r.chain, r) else t)
    else if present then t else t.Insert(r)
  }

  /**
   What one pass over `rules` does to the tables when the presence checks answered
   `answers`: an absent rule is inserted at the head, or a present one deleted.
   An answer may be wrong, because a check that times out reads as "absent".
   */
  function Applied(t: Tables, rules: seq<Rule>, remove: bool, answers: seq<bool>): Tables
    requires |answers| == |rules|
  {
    if rules == [] then t
    else
      var n := |rules| - 1;
      Step(Applied(t, rules[..n], remove, answers[..n]), rules[n], remove, answers[n])
  }

  /** A check never invents a rule: the answer "present" is always right. */
  predicate NeverInvents(t: Tables, rules: seq<Rule>, remove: bool, answers: seq<bool>)
    requires |answers| == |rules|
  {
    rules == [] ||
    var n := |rules| - 1;
    && NeverInvents(t, rules[..n], remove, answers[..n])
    && (answers[n] ==> Applied(t, rules[..n], remove, answers[..n]).Contains(rules[n]))
  }

  /** Every answer about a rule of the scope was right, "absent" included. */
  predicate Truthful(t: Tables, rules: seq<Rule>, remove: bool, answers: seq<bool>, scope: Scope)
    requires |answers| == |rules|
  {
    rules == [] ||
    var n := |rules| - 1;
    && Truthful(t, rules[..n], remove, answers[..n], scope)
    && (scope.Covers(rules[n]) ==> (answers[n] <==> Applied(t, rules[..n], remove, answers[..n]).Contains(rules[n])))
  }

  /** An insertion pass leaves every one of its rules present, wrong answers or not, and loses nothing. */
  lemma {:induction false} AppliedInserts(t: Tables, rules: seq<Rule>, answers: seq<bool>)
    requires |answers| == |rules| && NeverInvents(t, rules, false, answers)
    ensures forall x :: Applied(t, rules, false, answers).Contains(x) <==> t.Contains(x) || x in rules
  {
    if rules != [] {
      var n := |rules| - 1;
      AppliedInserts(t, rules[..n], answers[..n]);
      assert forall x :: x in rules <==> x in rules[..n] || x == rules[n];
    }
  }

  /** The upper part of a chain after one step, which leaves the lower part alone. */
  lemma StepUpper(upper: seq<Rule>, lower: seq<Rule>, r: Rule, remove: bool, present: bool, scope: Scope) returns (after: seq<Rule>)
    requires r !in lower
    ensures (if remove then (if present then Delete(upper + lower, r) else upper + lower)
             else if present then upper + lower else [r] + (upper + lower)) == after + lower
    ensures forall x :: x in after ==> x in upper || (!remove && x == r)
    ensures forall x :: x in upper && !(remove && x == r) ==> x in after
    ensures !remove && !present ==> r in after
    ensures after == if !remove then (if present then upper else [r] + upper) else if present then Delete(upper, r) else upper
    ensures Once(upper, scope) && (scope.Covers(r) ==> (present <==> r in upper)) ==>
              Once(after, scope) && (remove && scope.Covers(r) ==> r !in after)
  {
    if remove && present {
      DeleteFromUpper(upper, lower, r);
      after := Delete(upper, r);
      if Once(upper, scope) { DeleteOnce(upper, r, scope); }
    } else if !remove && !present {
      after := [r] + upper;
      assert [r] + (upper + lower) == after + lower;
    } else {
      after := upper;
    }
  }

  /**
   A pass over rules that live only in the upper part of the forward chain changes
   only that part. With right answers about the rules of a scope it keeps them free of
   duplicates, and a deletion pass then removes those of its list altogether.
   */
  lemma {:induction false} AppliedSplit(t: Tables, upper: seq<Rule>, lower: seq<Rule>,
                                        rules: seq<Rule>, remove: bool, answers: seq<bool>, scope: Scope)
    returns (upper2: seq<Rule>)
    requires |answers| == |rules| && NeverInvents(t, rules, remove, answers)
    requires t.forward4 == upper + lower
    requires forall r :: r in rules ==> r.chain == Forward4 && r !in lower
    ensures Applied(t, rules, remove, answers) == t.(forward4 := upper2 + lower)
    ensures forall x :: x in upper2 ==> x in upper || (!remove && x in rules)
    ensures forall x :: x in upper && !(remove && x in rules) ==> x in upper2
    ensures !remove ==> forall x :: x in rules ==> x in upper2
    ensures Truthful(t, rules, remove, answers, scope) && Once(upper, scope) ==>
              Once(upper2, scope) && (remove ==> forall x :: x in rules && scope.Covers(x) ==> x !in upper2)
  {
    if rules == [] {
      upper2 := upper;
    } else {
      var n := |rules| - 1;
      var r := rules[n];
      var middle := AppliedSplit(t, upper, lower, rules[..n], remove, answers[..n], scope);
      var before := Applied(t, rules[..n], remove, answers[..n]);
      assert before.forward4 == middle + lower;
      assert forall x :: x in rules <==> x in rules[..n] || x == r;
      assert before.Contains(r) <==> r in middle;
      upper2 := StepUpper(middle, lower, r, remove, answers[n], scope);
    }
  }

  lemma SameUpper(a: seq<Rule>, b: seq<Rule>, lower: seq<Rule>)
    requires a + lower == b + lower
    ensures a == b
  {
    assert |a + lower| == |b + lower|;
    assert a == (a + lower)[..|a|] && b == (b + lower)[..|b|];
  }

  function InsertAll(t: Tables, rules: seq<Rule>): Tables {
    if rules == [] then t
    else InsertAll(t, rules[..|rules| - 1]).Insert(rules[|rules| - 1])
  }

  /** Inserting distinct rules that are nowhere yet: no check can be answered "present". */
  lemma {:induction false} FreshInserts(t: Tables, rules: seq<Rule>, answers: seq<bool>)
    requires |answers| == |rules| && NeverInvents(t, rules, false, answers)
    requires NoDuplicates(rules) && forall r :: r in rules ==> !t.Contains(r)
    ensures Applied(t, rules, false, answers) == InsertAll(t, rules)
  {
    if rules != [] {
      var n := |rules| - 1;
      FreshInserts(t, rules[..n], answers[..n]);
      AppliedInserts(t, rules[..n], answers[..n]);
      assert rules[n] !in rules[..n];
    }
  }

  lemma InsertOneMore(t: Tables, rules: seq<Rule>, r: Rule)
    ensures InsertAll(t, rules + [r]) == InsertAll(t, rules).Insert(r)
  {
    assert (rules + [r])[..|rules|] == rules;
  }
}
