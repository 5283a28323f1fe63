/**
 The manager's peer table and the file it is kept in: what a table must satisfy, what is
 written, and what a restart accepts.
 */
module PeerTable {
  import opened Wrappers
  import opened Counting
  import opened Policy

  const MAX_PEERS := 128
  const VPS := "vps"

  type Table = map<string, Peer>

  predicate ValidServiceName(name: string) {
    1 <= |name| <= 80 && forall i :: 0 <= i < |name| ==> name[i] >= 32 as char && name[i] != 127 as char
  }

  // ---- management addresses ----

  ghost predicate ManagementOk(addresses: seq<Option<int>>) {
    && |addresses| <= 16
    && (forall i :: 0 <= i < |addresses| ==> addresses[i].Some? && IsPrivate(addresses[i].value))
    && (forall i, j :: 0 <= i < j < |addresses| ==> addresses[i] != addresses[j])
  }

  /** Distinct private addresses, sixteen at most, become host routes in their order. */
  method ManagementRoutes(addresses: seq<Option<int>>) returns (routes: Option<seq<int>>)
    ensures routes.Some? <==> ManagementOk(addresses)
    ensures routes.Some? ==> |routes.value| == |addresses|
    ensures routes.Some? ==> forall i :: 0 <= i < |addresses| ==> addresses[i] == Some(routes.value[i])
  {
    if |addresses| > 16 { return None; }
    var seen: set<int> := {};
    var result: seq<int> := [];
    for i := 0 to |addresses|
      invariant |result| == i && forall k :: 0 <= k < i ==> addresses[k] == Some(result[k]) && IsPrivate(result[k])
      invariant seen == set k | 0 <= k < i :: result[k]
      invariant forall k, l :: 0 <= k < l < i ==> addresses[k] != addresses[l]
    {
      match addresses[i]
      case None => return None;
      case Some(a) =>
        if !IsPrivate(a) { return None; }
        if a in seen {
          var k :| 0 <= k < i && result[k] == a;
          assert addresses[k] == addresses[i];
          return None;
        }
        seen := seen + {a};
        result := result + [a];
    }
    return Some(result);
  }

  // ---- tables ----

  ghost predicate RecordOk(p: Peer) {
    && ValidId(p.deviceId) && ValidKey(p.publicKey) && UsableHost(p.host)
    && ManagementOk(p.management) && (!p.service ==> p.management == [])
    && p.exitId in {"", VPS, HOME}
    && (p.service ==> p.exitId == "" && ValidServiceName(p.name))
  }

  /** Two records that may stand side by side. */
  predicate Apart(p: Peer, q: Peer) {
    p.host != q.host && p.publicKey != q.publicKey && !(p.service && q.service)
  }

  ghost predicate TableOk(t: Table) {
    && |t| <= MAX_PEERS
    && (forall id :: id in t ==> t[id].deviceId == id && RecordOk(t[id]))
    && (forall i, j :: i in t && j in t && i != j ==> Apart(t[i], t[j]))
  }

  function Restrict(t: Table, ids: set<string>): Table {
    map id | id in t && id in ids :: t[id]
  }

  ghost predicate PartOf(small: Table, large: Table) {
    forall id :: id in small ==> id in large && small[id] == large[id]
  }

  lemma PartOfOk(small: Table, large: Table)
    requires TableOk(large) && PartOf(small, large)
    ensures TableOk(small)
  {
    assert small.Keys <= large.Keys;
    SubsetIsSmaller(small.Keys, large.Keys);
    assert |small| == |small.Keys| && |large| == |large.Keys|;
  }

  // ---- the file ----

  datatype PeersFile = Missing | Listed(entries: seq<Peer>)

  /** Every check a restart makes, over the entries in any order. */
  ghost predicate EntriesOk(ps: seq<Peer>) {
    && |ps| <= MAX_PEERS
    && (forall i :: 0 <= i < |ps| ==> RecordOk(ps[i]))
    && (forall i, j :: 0 <= i < j < |ps| ==> ps[i].deviceId != ps[j].deviceId && Apart(ps[i], ps[j]))
  }

  function EntriesOf(f: PeersFile): seq<Peer> {
    match f
    case Missing => []
    case Listed(ps) => ps
  }

  ghost predicate FileOk(f: PeersFile) { EntriesOk(EntriesOf(f)) }

  /** `ps` lists the table, in some order. */
  ghost predicate Lists(ps: seq<Peer>, t: Table) {
    && |ps| == |t|
    && (forall i :: 0 <= i < |ps| ==> ps[i].deviceId in t && t[ps[i].deviceId] == ps[i])
    && (forall i, j :: 0 <= i < j < |ps| ==> ps[i].deviceId != ps[j].deviceId)
    && (forall id :: id in t ==> exists i :: 0 <= i < |ps| && ps[i].deviceId == id)
  }

  /** What the manager writes is what a restart accepts. */
  lemma ListedTableIsAccepted(ps: seq<Peer>, t: Table)
    requires TableOk(t) && Lists(ps, t)
    ensures EntriesOk(ps)
  {
  }

  /** A file has one table at most: it reloads to the table that was written. */
  lemma ListedTableIsUnique(ps: seq<Peer>, t: Table, u: Table)
    requires Lists(ps, t) && Lists(ps, u)
    ensures t == u
  {
    forall id | id in t ensures id in u && u[id] == t[id] {
      var i :| 0 <= i < |ps| && ps[i].deviceId == id;
    }
    forall id | id in u ensures id in t {
      var i :| 0 <= i < |ps| && ps[i].deviceId == id;
    }
  }

  /** Write a table out, in whatever order its iteration yields. */
  method ListTable(t: Table) returns (ps: seq<Peer>)
    requires forall id :: id in t ==> t[id].deviceId == id
    ensures Lists(ps, t)
  {
    ps := [];
    var todo := t.Keys;
    while todo != {}
      invariant todo <= t.Keys && |ps| + |todo| == |t|
      invariant forall i :: 0 <= i < |ps| ==> ps[i].deviceId in t && ps[i].deviceId !in todo && t[ps[i].deviceId] == ps[i]
      invariant forall i, j :: 0 <= i < j < |ps| ==> ps[i].deviceId != ps[j].deviceId
      invariant forall id :: id in t && id !in todo ==> exists i :: 0 <= i < |ps| && ps[i].deviceId == id
    {
      var id :| id in todo;
      ghost var was, n := ps, |ps|;
      ps := ps + [t[id]];
      todo := todo - {id};
      assert ps[n].deviceId == id;
      assert forall i :: 0 <= i < n ==> ps[i] == was[i];
    }
  }

  /** The running account of the entries read so far. */
  ghost predicate Account(ps: seq<Peer>, hosts: set<int>, keys: set<string>, services: nat) {
    && hosts == (set k | 0 <= k < |ps| :: ps[k].host)
    && keys == (set k | 0 <= k < |ps| :: ps[k].publicKey)
    && services == if exists k :: 0 <= k < |ps| && ps[k].service then 1 else 0
  }

  /** A new entry beside those already read, of which `hosts`, `keys` and `services` keep account. */
  method CheckEntry(p: Peer, ghost ps: seq<Peer>, t: Table, hosts: set<int>, keys: set<string>, services: nat) returns (ok: bool)
    requires Lists(ps, t)
    requires Account(ps, hosts, keys, services)
    ensures ok <==> RecordOk(p) && forall k :: 0 <= k < |ps| ==> ps[k].deviceId != p.deviceId && Apart(ps[k], p)
  {
    hide ValidId, ValidKey, ManagementOk, ValidServiceName;
    var routes := ManagementRoutes(p.management);
    if || !ValidId(p.deviceId) || !UsableHost(p.host) || p.host in hosts || p.publicKey in keys
       || !ValidKey(p.publicKey) || routes.None? || (!p.service && p.management != [])
    {
      return false;
    }
    var total := if p.service then services + 1 else services;
    if || total > 1 || p.exitId !in {"", VPS, HOME}
       || (p.service && (p.exitId != "" || !ValidServiceName(p.name)))
    {
      return false;
    }
    ok := p.deviceId !in t;
    if !ok {
      ghost var k :| 0 <= k < |ps| && ps[k].deviceId == p.deviceId;
    }
  }

  /** What a restart makes of the file: the table it lists, or a refusal. */
  method LoadTable(f: PeersFile) returns (r: Option<Table>)
    ensures r.Some? <==> FileOk(f)
    ensures r.Some? ==> TableOk(r.value) && Lists(EntriesOf(f), r.value)
  {
    hide RecordOk, Apart, Account, Lists, EntriesOk;
    var ps := EntriesOf(f);
    NoEntries();
    if |ps| > MAX_PEERS {
      TooManyEntries(ps);
      return None;
    }
    var t: Table := map[];
    var hosts: set<int>, keys: set<string>, services := {}, {}, 0;
    for i := 0 to |ps|
      invariant EntriesOk(ps[..i]) && Lists(ps[..i], t) && Account(ps[..i], hosts, keys, services)
    {
      var p := ps[i];
      ghost var read := ps[..i];
      var ok := CheckEntry(p, read, t, hosts, keys, services);
      if !ok {
        RefusedEntry(ps, i);
        return None;
      }
      NotListed(read, t, p);
      EntriesOneMore(read, p, hosts, keys, services);
      ListsOneMore(read, t, p);
      assert ps[..i + 1] == read + [p];
      t, hosts, keys := t[p.deviceId := p], hosts + {p.host}, keys + {p.publicKey};
      services := if p.service then services + 1 else services;
    }
    assert ps[..|ps|] == ps;
    ListedEntriesMakeTable(ps, t);
    return Some(t);
  }

  lemma EntriesOneMore(ps: seq<Peer>, p: Peer, hosts: set<int>, keys: set<string>, services: nat)
    requires EntriesOk(ps) && RecordOk(p) && |ps| < MAX_PEERS
    requires forall k :: 0 <= k < |ps| ==> ps[k].deviceId != p.deviceId && Apart(ps[k], p)
    requires Account(ps, hosts, keys, services)
    ensures EntriesOk(ps + [p])
    ensures Account(ps + [p], hosts + {p.host}, keys + {p.publicKey}, if p.service then services + 1 else services)
  {
    var qs := ps + [p];
    assert forall k :: 0 <= k < |ps| ==> qs[k] == ps[k];
    assert qs[|ps|] == p;
    assert hosts + {p.host} == (set k | 0 <= k < |qs| :: qs[k].host);
    assert keys + {p.publicKey} == (set k | 0 <= k < |qs| :: qs[k].publicKey);
    if p.service {
      assert forall k :: 0 <= k < |ps| ==> !ps[k].service;
      assert qs[|ps|].service;
    } else if services == 1 {
      var k :| 0 <= k < |ps| && ps[k].service;
      assert qs[k].service;
    }
  }

  lemma NoEntries()
    ensures EntriesOk([]) && Lists([], map[]) && Account([], {}, {}, 0)
  {
  }

  lemma TooManyEntries(ps: seq<Peer>)
    requires |ps| > MAX_PEERS
    ensures !EntriesOk(ps)
  {
  }

  lemma NotListed(ps: seq<Peer>, t: Table, p: Peer)
    requires Lists(ps, t)
    requires forall k :: 0 <= k < |ps| ==> ps[k].deviceId != p.deviceId
    ensures p.deviceId !in t
  {
  }

  lemma ListsOneMore(ps: seq<Peer>, t: Table, p: Peer)
    requires Lists(ps, t) && p.deviceId !in t
    ensures Lists(ps + [p], t[p.deviceId := p])
  {
    var qs, u := ps + [p], t[p.deviceId := p];
    forall id | id in u ensures exists i :: 0 <= i < |qs| && qs[i].deviceId == id {
      if id == p.deviceId {
        assert qs[|ps|].deviceId == id;
      } else {
        var i :| 0 <= i < |ps| && ps[i].deviceId == id;
        assert qs[i].deviceId == id;
      }
    }
  }

  lemma RefusedEntry(ps: seq<Peer>, i: nat)
    requires i < |ps|
    requires !(RecordOk(ps[i]) && forall k :: 0 <= k < i ==> ps[..i][k].deviceId != ps[i].deviceId && Apart(ps[..i][k], ps[i]))
    ensures !EntriesOk(ps)
  {
    hide RecordOk, Apart;
  }

  lemma ApartIsSymmetric()
    ensures forall p, q :: Apart(p, q) ==> Apart(q, p)
  {
  }

  lemma ListedEntriesMakeTable(ps: seq<Peer>, t: Table)
    requires EntriesOk(ps) && Lists(ps, t)
    ensures TableOk(t)
  {
    hide RecordOk, Apart;
    ApartIsSymmetric();
    forall id | id in t ensures t[id].deviceId == id && RecordOk(t[id]) {
      var i :| 0 <= i < |ps| && ps[i].deviceId == id;
    }
    forall a, b | a in t && b in t && a != b ensures Apart(t[a], t[b]) {
      var i :| 0 <= i < |ps| && ps[i].deviceId == a;
      var j :| 0 <= j < |ps| && ps[j].deviceId == b;
      assert if i < j then Apart(ps[i], ps[j]) else Apart(ps[j], ps[i]);
    }
  }

  /** The file on disk, replaced atomically; it remembers everything it ever held. */
  class Disk {
    var file: PeersFile
    ghost var held: set<PeersFile>
    ghost var failures: nat

    /** Whatever a crash leaves behind can be loaded. */
    ghost predicate Valid()
      reads this
    {
      file in held && forall f :: f in held ==> FileOk(f)
    }

    constructor (initial: PeersFile)
      requires FileOk(initial)
      ensures Valid() && file == initial && failures == 0
    {
      file, held, failures := initial, {initial}, 0;
    }

    /**
     Create, write, sync and close a temporary file, rename it over the old one, sync the
     directory. The content changes at the rename alone, and a failure after it is reported.
     */
    method SavePrivate(ps: seq<Peer>) returns (ok: bool)
      requires Valid() && EntriesOk(ps)
      modifies this
      ensures Valid() && held == old(held) + {file}
      ensures ok ==> file == Listed(ps)
      ensures file in {old(file), Listed(ps)}
      ensures failures == old(failures) + if ok then 0 else 1
    {
      var prepared: bool := *;  // create, chmod, write, sync, close
      var renamed: bool := *;
      ok := prepared && renamed;
      if ok {
        file := Listed(ps);
        held := held + {file};
        ok := *;                // the directory's sync
      }
      failures := failures + if ok then 0 else 1;
    }
  }
}
