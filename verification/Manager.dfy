/**
 The manager: the peer table over the Linux backend and the peers file, reconciled with
 the device authorizations before every answer.
 */
module VpnManager {
  import opened Wrappers
  import opened Counting
  import opened Firewall
  import opened Policy
  import opened Kernel
  import opened Netfilter
  import opened LinuxBackend
  import opened PeerTable
  import Routes

  datatype Failure =
    | InvalidIdentity
    | InvalidKey
    | UnknownExit
    | BadServiceRequest
    | NotAuthorized
    | AuthorizationsUnavailable
    | RoleChange
    | ServiceTaken
    | KeyTaken
    | NoHomeService
    | LimitReached
    | BackendFailed
    | SaveFailed
    | ReconcileFailed(cause: Failure)

  datatype Outcome = Done | Failed(failure: Failure)

  /** What a device is told; the management routes are the home service's. */
  datatype Profile = Profile(exitId: string, exitName: string, address: int, management: seq<int>)

  /** An authorization snapshot: the active devices, or None when the records cannot be read. */
  type Snapshot = Option<set<string>>

  /** Everything the backend holds is on the table, as the same record. */
  ghost predicate Agreement(held: map<string, Peer>, t: Table) {
    forall k :: k in held ==> held[k].deviceId in t && t[held[k].deviceId] == held[k]
  }

  lemma AgreementWithin(held: map<string, Peer>, small: map<string, Peer>, t: Table)
    requires Agreement(held, t) && forall k :: k in small ==> k in held && small[k] == held[k]
    ensures Agreement(small, t)
  {
  }

  /** A record taken off the table after the backend dropped its key. */
  lemma AgreementWithout(held: map<string, Peer>, t: Table, id: string)
    requires PeersOk(held) && TableOk(t) && id in t
    requires Agreement(held, t) && t[id].publicKey !in held
    ensures Agreement(held, t - {id})
  {
    hide RecordOk, Apart, ValidKey, Compatible;
    forall k | k in held ensures held[k].deviceId in t - {id} && (t - {id})[held[k].deviceId] == held[k] {
      assert held[k].publicKey == k;
      assert t[held[k].deviceId] == held[k];
    }
  }

  /** The record about to be installed conflicts with nothing the backend holds. */
  lemma CanJoin(held: map<string, Peer>, t: Table, p: Peer)
    requires PeersOk(held) && Agreement(held, t) && TableOk(t[p.deviceId := p])
    requires p.deviceId in t ==> t[p.deviceId].publicKey == p.publicKey || t[p.deviceId].publicKey !in held
    ensures MayJoin(held, p)
    ensures Agreement(held[p.publicKey := p], t[p.deviceId := p])
  {
    var u := t[p.deviceId := p];
    assert u[p.deviceId] == p;
    forall k | k in held && k != p.publicKey
      ensures Compatible(held[k], p) && held[k].deviceId != p.deviceId
    {
      assert held[k].publicKey == k;
      assert held[k].deviceId != p.deviceId;
      assert u[held[k].deviceId] == held[k];
    }
  }

  /** All three layers hold the same peers: table, backend and WireGuard. */
  ghost predicate FullOn(t: Table, held: map<string, Peer>, wg: map<string, Installed>) {
    forall id :: id in t ==> t[id].publicKey in held && held[t[id].publicKey] == t[id] && t[id].publicKey in wg
  }

  lemma FullWithout(t: Table, held: map<string, Peer>, wg: map<string, Installed>, id: string)
    requires TableOk(t) && id in t && FullOn(t, held, wg)
    ensures FullOn(t - {id}, held - {t[id].publicKey}, wg - {t[id].publicKey})
  {
    forall x | x in t - {id} ensures t[x].publicKey != t[id].publicKey {
      assert Apart(t[x], t[id]);
    }
  }

  /** Setting a record that is on the table by itself, or held and served already. */
  lemma FullAfterSet(t: Table, held: map<string, Peer>, wg: map<string, Installed>, p: Peer, wg2: map<string, Installed>)
    requires Poised(t, held, wg, p) && TableOk(t[p.deviceId := p])
    requires forall k :: k in wg ==> k in wg2
    requires p.publicKey in wg2 || (p.publicKey in held && held[p.publicKey] == p)
    ensures FullOn(t[p.deviceId := p], held[p.publicKey := p], wg2)
  {
    var u := t[p.deviceId := p];
    forall x | x in u && x != p.deviceId ensures u[x].publicKey != p.publicKey && x in t - {p.deviceId} {
      assert Apart(u[x], u[p.deviceId]);
    }
  }

  /** All other records are in every layer, and this one, if the backend holds it, in WireGuard. */
  ghost predicate Poised(t: Table, held: map<string, Peer>, wg: map<string, Installed>, p: Peer) {
    && FullOn(t - {p.deviceId}, held, wg)
    && (p.publicKey in held && held[p.publicKey] == p ==> p.publicKey in wg)
  }

  lemma PoisedWhenFull(t: Table, held: map<string, Peer>, wg: map<string, Installed>, p: Peer)
    requires Agreement(held, t)
    requires FullOn(t, held, wg) ||
             (FullOn(t - {p.deviceId}, held, wg) && p.deviceId in t && t[p.deviceId].publicKey != p.publicKey)
    ensures Poised(t, held, wg, p)
  {
  }

  lemma PoisedBefore(t: Table, held: map<string, Peer>, wg: map<string, Installed>, id: string)
    requires id in t && t[id].deviceId == id
    requires FullOn(t, held, wg) || (FullOn(t - {id}, held, wg) && t[id].publicKey !in held)
    ensures Poised(t, held, wg, t[id])
  {
  }

  // ---- registration ----

  /** A failure that may have left a peer out of the backend, as against a refusal. */
  datatype Effect = Performed | Declined | Broken

  function FailureClass<T>(r: Result<T, Failure>): Effect {
    match r
    case Ok(_) => Performed
    case Err(f) => if f in {BackendFailed, SaveFailed} || f.ReconcileFailed? then Broken else Declined
  }

  ghost predicate RequestOk(request: Peer) {
    && request.host == 0
    && (!request.service ==> request.exitId in {VPS, HOME} && request.management == [])
    && (request.service ==> request.exitId == "" && ValidServiceName(request.name) && ManagementOk(request.management))
  }

  function ExitRequest(id: string, key: string, exit: string): Peer {
    Peer(id, key, 0, if exit == "" then VPS else exit, false, "", [])
  }

  function ServiceRequest(id: string, key: string, name: string, management: seq<Option<int>>): Peer {
    Peer(id, key, 0, "", true, name, management)
  }

  /** What a granted device is told. */
  ghost predicate Describes(c: Config, t: Table, profile: Profile, p: Peer) {
    && profile.address == c.Address(p.host)
    && (!p.UsesHome() ==> profile == Profile(VPS, c.name, profile.address, []))
    && (p.UsesHome() ==> profile.exitId == HOME && DescribesService(t, profile))
  }

  ghost predicate DescribesService(t: Table, profile: Profile) {
    exists id ::
      && id in t && t[id].service
      && profile.exitName == t[id].name
      && |profile.management| == |t[id].management|
      && forall i :: 0 <= i < |profile.management| ==> t[id].management[i] == Some(profile.management[i])
  }

  /** The device has the exit it asked for, and is told so; no exit named means the server's own uplink. */
  ghost predicate ExitGranted(c: Config, t: Table, id: string, key: string, exit: string, profile: Profile) {
    && id in t && t[id].deviceId == id && t[id].publicKey == key
    && (t[id].UsesHome() <==> exit == HOME)
    && (t[id].UsesUplink() <==> exit in {"", VPS})
    && Describes(c, t, profile, t[id])
  }

  /** The node is on the table as the home service, under the name and with the addresses it gave. */
  ghost predicate ServiceGranted(c: Config, t: Table, id: string, key: string, name: string,
                                 management: seq<Option<int>>, profile: Profile) {
    && id in t && t[id].deviceId == id && t[id].publicKey == key
    && t[id].service && t[id].name == name && t[id].management == management
    && profile == Profile(HOME, name, c.Address(t[id].host), [])
  }

  ghost predicate HasService(t: Table) { exists id :: id in t && t[id].service }

  /** Why a request cannot be granted on this table. */
  ghost predicate Refused(request: Peer, t: Table, failure: Failure) {
    var id := request.deviceId;
    match failure
    case RoleChange => id in t && t[id].service != request.service
    case ServiceTaken => request.service && exists other :: other in t && other != id && t[other].service
    case KeyTaken => exists other :: other in t && other != id && t[other].publicKey == request.publicKey
    case NoHomeService => request.exitId == HOME && !HasService(t)
    case LimitReached => id !in t && |t| >= MAX_PEERS
    case _ => false
  }

  /** The host a granted request gets: the one it had, or the first free one. */
  ghost predicate Allocated(host: int, id: string, t: Table) {
    && UsableHost(host)
    && (id in t ==> host == t[id].host)
    && (id !in t ==> IsFree(host, t) && forall h :: 2 <= h < host ==> !IsFree(h, t))
  }

  ghost predicate IsFree(host: int, t: Table) { forall id :: id in t ==> t[id].host != host }

  lemma GrantedTableOk(t: Table, request: Peer, host: int)
    requires TableOk(t) && RequestOk(request) && ValidId(request.deviceId) && ValidKey(request.publicKey)
    requires forall f :: !Refused(request, t, f)
    requires Allocated(host, request.deviceId, t)
    ensures TableOk(t[request.deviceId := request.(host := host)])
  {
    var id, p := request.deviceId, request.(host := host);
    GrantedRecordOk(request, host) by { assert UsableHost(host); }
    GrantedApart(t, request, host);
    if id !in t { RoomForOne(t, request); }
    TableWith(t, p);
  }

  lemma TableWith(t: Table, p: Peer)
    requires TableOk(t) && RecordOk(p) && (p.deviceId !in t ==> |t| < MAX_PEERS)
    requires forall other :: other in t && other != p.deviceId ==> Apart(t[other], p) && Apart(p, t[other])
    ensures TableOk(t[p.deviceId := p])
  {
    hide RecordOk, Apart;
    var u := t[p.deviceId := p];
    assert u.Keys == t.Keys + {p.deviceId};
    assert |u| == |u.Keys| && |t| == |t.Keys|;
  }

  lemma GrantedRecordOk(request: Peer, host: int)
    requires RequestOk(request) && ValidId(request.deviceId) && ValidKey(request.publicKey) && UsableHost(host)
    ensures RecordOk(request.(host := host))
  {
    hide ValidId, ValidKey, ValidServiceName;
  }

  lemma GrantedApart(t: Table, request: Peer, host: int)
    requires TableOk(t) && Allocated(host, request.deviceId, t)
    requires forall f :: !Refused(request, t, f)
    ensures forall other :: other in t && other != request.deviceId ==>
              Apart(t[other], request.(host := host)) && Apart(request.(host := host), t[other])
  {
    hide RecordOk;
    var id := request.deviceId;
    assert !Refused(request, t, RoleChange) && !Refused(request, t, ServiceTaken) && !Refused(request, t, KeyTaken);
    forall other | other in t && other != id
      ensures Apart(t[other], request.(host := host)) && Apart(request.(host := host), t[other])
    {
      if id in t { assert Apart(t[other], t[id]); }
    }
  }

  /** What registering makes of table `t`, on the two snapshots it read: every answer has its reason. */
  ghost predicate RegistersTo(request: Peer, first: Snapshot, later: Snapshot, t: Table, r: Result<Profile, Failure>, u: Table) {
    match r
    case Ok(_) => Authorized(request.deviceId, first) && later.Some? && Granted(request, Restrict(t, later.value), u)
    case Err(f) =>
      if f.ReconcileFailed? then Authorized(request.deviceId, first) && KeepsAuthorized(t, later, u)
      else if AfterReconcile(f) then
        && Authorized(request.deviceId, first) && later.Some? && u == Restrict(t, later.value)
        && (Refusal(f) ==> Refused(request, u, f))
      else
        && u == t
        && (f == InvalidIdentity || f == InvalidKey || f == NotAuthorized)
        && (f == InvalidIdentity ==> !ValidId(request.deviceId))
        && (f == InvalidKey ==> !ValidKey(request.publicKey))
        && (f == NotAuthorized ==> !Authorized(request.deviceId, first))
  }

  predicate Authorized(id: string, auth: Snapshot) { auth.Some? && id in auth.value }

  predicate Refusal(failure: Failure) {
    failure in {RoleChange, ServiceTaken, KeyTaken, NoHomeService, LimitReached}
  }

  /** Failures reported once the table has been reconciled. */
  predicate AfterReconcile(failure: Failure) {
    Refusal(failure) || failure in {BackendFailed, SaveFailed}
  }

  /** Records were only taken away, and no authorized one. */
  ghost predicate KeepsAuthorized(t: Table, auth: Snapshot, now: Table) {
    && PartOf(now, t)
    && (auth.Some? ==> forall id :: id in t && id in auth.value ==> id in now)
  }

  /** From table `t` the request was granted: nothing spoke against it, and only its record changed. */
  ghost predicate Granted(request: Peer, t: Table, now: Table) {
    && ValidId(request.deviceId) && ValidKey(request.publicKey)
    && (forall f :: !Refused(request, t, f))
    && exists host :: Allocated(host, request.deviceId, t) && now == t[request.deviceId := request.(host := host)]
  }

  /** A granted request is on the table as it was made, but for its host. */
  lemma GrantedRecord(request: Peer, t: Table, now: Table)
    requires Granted(request, t, now)
    ensures request.deviceId in now && now[request.deviceId] == request.(host := now[request.deviceId].host)
  {
    hide Allocated, Refused, ValidId, ValidKey;
    var host :| Allocated(host, request.deviceId, t) && now == t[request.deviceId := request.(host := host)];
  }

  lemma OnlyRefusals(request: Peer, t: Table, failure: Failure)
    requires Refused(request, t, failure)
    ensures Refusal(failure)
  {
  }

  lemma GrantedBy(request: Peer, t: Table, host: int)
    requires ValidId(request.deviceId) && ValidKey(request.publicKey)
    requires Allocated(host, request.deviceId, t) && forall f :: !Refused(request, t, f)
    ensures Granted(request, t, t[request.deviceId := request.(host := host)])
  {
  }

  lemma FirstFreeHost(t: Table, id: string, host: int)
    requires id !in t && UsableHost(host) && IsFree(host, t) && forall h :: 2 <= h < host ==> !IsFree(h, t)
    ensures Allocated(host, id, t)
  {
  }

  lemma HostOfRecord(t: Table, id: string)
    requires TableOk(t) && id in t
    ensures Allocated(t[id].host, id, t)
  {
  }

  lemma RoomForOne(t: Table, request: Peer)
    requires forall f :: !Refused(request, t, f)
    requires request.deviceId !in t
    ensures |t| < MAX_PEERS
  {
    assert !Refused(request, t, LimitReached);
  }

  lemma ServiceStays(t: Table, request: Peer, p: Peer)
    requires forall f :: !Refused(request, t, f)
    requires exists host :: p == request.(host := host)
    ensures p.UsesHome() ==> HasService(t[p.deviceId := p])
  {
    if p.UsesHome() {
      assert !Refused(request, t, NoHomeService) && !Refused(request, t, RoleChange);
      var id :| id in t && t[id].service;
      assert id != p.deviceId;
      assert t[p.deviceId := p][id].service;
    }
  }

  /** The used hosts are at most as many as the records. */
  lemma {:induction false} HostsFit(t: Table, ids: set<string>)
    requires ids <= t.Keys
    ensures |set id | id in ids :: t[id].host| <= |ids|
  {
    if ids != {} {
      var x :| x in ids;
      HostsFit(t, ids - {x});
      assert (set id | id in ids :: t[id].host) == (set id | id in ids - {x} :: t[id].host) + {t[x].host};
    }
  }

  /** Pigeonhole: fewer than 128 records cannot fill 253 hosts. */
  lemma SomeHostIsFree(t: Table)
    requires |t| < MAX_PEERS
    ensures exists h :: UsableHost(h) && IsFree(h, t)
  {
    var used := set id | id in t.Keys :: t[id].host;
    HostsFit(t, t.Keys);
    assert |t| == |t.Keys|;
    if forall h :: UsableHost(h) ==> !IsFree(h, t) {
      forall h | 2 <= h < 255 ensures h in used {
        assert UsableHost(h) && !IsFree(h, t);
      }
      SubsetIsSmaller(Range(2, 255), used);
      assert false;
    }
  }

  method AllocateHost(t: Table) returns (host: int)
    requires |t| < MAX_PEERS
    ensures UsableHost(host) && IsFree(host, t) && forall h :: 2 <= h < host ==> !IsFree(h, t)
  {
    SomeHostIsFree(t);
    var used := set id | id in t.Keys :: t[id].host;
    host := 2;
    while host in used
      invariant 2 <= host <= 254
      invariant forall h :: 2 <= h < host ==> !IsFree(h, t)
      decreases 254 - host
    {
      var id :| id in t.Keys && t[id].host == host;
      assert !IsFree(host, t);
      host := host + 1;
    }
  }

  /** Look for reasons to refuse, in whatever order the table is iterated. */
  method Admit(t: Table, request: Peer) returns (r: Outcome)
    ensures r.Done? <==> forall f :: !Refused(request, t, f)
    ensures r.Failed? ==> Refused(request, t, r.failure)
  {
    var id := request.deviceId;
    if id in t && t[id].service != request.service {
      assert Refused(request, t, RoleChange);
      return Failed(RoleChange);
    }
    var foundService := false;
    var todo := t.Keys;
    while todo != {}
      invariant todo <= t.Keys
      invariant foundService <==> exists other :: other in t && other !in todo && t[other].service
      invariant forall other :: other in t && other !in todo && other != id ==>
                  t[other].publicKey != request.publicKey && !(request.service && t[other].service)
    {
      var other :| other in todo;
      if t[other].service { foundService := true; }
      if request.service && t[other].service && other != id {
        assert Refused(request, t, ServiceTaken);
        return Failed(ServiceTaken);
      }
      if other != id && t[other].publicKey == request.publicKey {
        assert Refused(request, t, KeyTaken);
        return Failed(KeyTaken);
      }
      todo := todo - {other};
    }
    if request.exitId == HOME && !foundService {
      assert Refused(request, t, NoHomeService);
      return Failed(NoHomeService);
    }
    if id !in t && |t| >= MAX_PEERS {
      assert Refused(request, t, LimitReached);
      return Failed(LimitReached);
    }
    return Done;
  }

  /** Drop every record of the table and nothing is left in the backend, or in WireGuard. */
  lemma NothingLeft(c: Config, s: KState, held: map<string, Peer>, upper: seq<Rule>, rest: Ground, t: Table)
    requires Sound(c, s, held, upper, rest) && Agreement(held, t)
    requires forall id :: id in t ==> t[id].publicKey !in held
    ensures held == map[] && s.wg == map[]
  {
    assert forall k :: k in held ==> held[k].publicKey == k;
  }

  // ---- whole runs ----

  /** Every peer installed since `before` is on the table. */
  ghost predicate InstalledFrom(t: Table, before: seq<Installed>, after: seq<Installed>) {
    before <= after && forall i :: |before| <= i < |after| ==> after[i].peer.deviceId in t
  }

  lemma InstalledOneMore(t: Table, first: seq<Installed>, before: seq<Installed>, after: seq<Installed>, id: string)
    requires InstalledFrom(t, first, before) && InstalledOnly(id, before, after) && id in t
    ensures InstalledFrom(t, first, after)
  {
  }

  ghost predicate ServedOn(t: Table, held: map<string, Peer>, wg: map<string, Installed>, id: string) {
    id in t && t[id].publicKey in held && held[t[id].publicKey] == t[id] && t[id].publicKey in wg
  }

  lemma ServedAfterSet(t: Table, held: map<string, Peer>, wg: map<string, Installed>, id: string, wg2: map<string, Installed>)
    requires TableOk(t) && id in t
    requires forall k :: k in wg ==> k in wg2
    requires t[id].publicKey !in held ==> t[id].publicKey in wg2
    ensures forall x :: x in t && ServedOn(t, held, wg, x) ==> ServedOn(t, held[t[id].publicKey := t[id]], wg2, x)
    ensures t[id].publicKey !in held ==> ServedOn(t, held[t[id].publicKey := t[id]], wg2, id)
  {
    OwnKeys(t, id);
  }

  lemma EveryoneServed(t: Table, held: map<string, Peer>, wg: map<string, Installed>)
    requires forall x :: x in t ==> ServedOn(t, held, wg, x)
    ensures FullOn(t, held, wg)
  {
  }

  /** At most one peer was installed, the one of device `id`. */
  ghost predicate InstalledOnly(id: string, before: seq<Installed>, after: seq<Installed>) {
    after == before || (|after| == |before| + 1 && before <= after && after[|before|].peer.deviceId == id)
  }

  datatype Event =
    | Tick(auth: Snapshot)
    | Exit(id: string, key: string, exit: string, first: Snapshot, later: Snapshot)
    | Service(id: string, key: string, name: string, management: seq<Option<int>>, first: Snapshot, later: Snapshot)
    | Removal(id: string)
    | Query(auth: Snapshot)  // status and exits, which reconcile before they answer

  datatype Reply = Reconciled(outcome: Outcome) | Registered(result: Result<Profile, Failure>) | Forgotten(outcome: Outcome)

  /** The operation did not break off half-way. */
  predicate Intact(reply: Reply) {
    match reply
    case Reconciled(outcome) => outcome.Done?
    case Registered(result) => FailureClass(result) != Broken
    case Forgotten(outcome) => outcome in {Done, Failed(InvalidIdentity)}
  }

  /** Only a tick whose reconciliation failed stops the service. */
  ghost predicate Stops(e: Event, reply: Reply) { e.Tick? && !Intact(reply) }

  /** Every authorization snapshot the event reads could be read. */
  predicate Readable(e: Event) {
    match e
    case Tick(auth) => auth.Some?
    case Query(auth) => auth.Some?
    case Exit(_, _, _, _, later) => later.Some?
    case Service(_, _, _, _, _, later) => later.Some?
    case Removal(_) => true
  }

  /** Table, backend, machine and file as the mutex is released, and what has gone wrong so far. */
  datatype Layers = Layers(table: Table, held: map<string, Peer>, state: KState, file: PeersFile,
                           clean: bool, flawless: bool, faults: nat, failures: nat)

  datatype Turn = Turn(event: Event, reply: Reply, layers: Layers)

  /** What an event and its reply make of the table. */
  ghost predicate TableMoves(c: Config, e: Event, reply: Reply, t: Table, u: Table) {
    match e
    case Tick(auth) => reply.Reconciled? && ReconcilesTo(auth, t, reply.outcome, u)
    case Query(auth) => reply.Reconciled? && ReconcilesTo(auth, t, reply.outcome, u)
    case Exit(id, key, exit, first, later) =>
      && reply.Registered?
      && (if exit in {"", VPS, HOME} then RegistersTo(ExitRequest(id, key, exit), first, later, t, reply.result, u)
          else reply.result == Err(UnknownExit) && u == t)
      && (reply.result.Ok? ==> ExitGranted(c, u, id, key, exit, reply.result.value))
    case Service(id, key, name, management, first, later) =>
      && reply.Registered?
      && (if ValidServiceName(name) && ManagementOk(management)
          then RegistersTo(ServiceRequest(id, key, name, management), first, later, t, reply.result, u)
          else reply.result == Err(BadServiceRequest) && u == t)
      && (reply.result.Ok? ==> ServiceGranted(c, u, id, key, name, management, reply.result.value))
    case Removal(id) =>
      && reply.Forgotten?
      && (reply.outcome == Failed(InvalidIdentity) <==> !ValidId(id))
      && u == if reply.outcome in {Done, Failed(SaveFailed)} then t - {id} else t
  }

  ghost predicate ReconcilesTo(auth: Snapshot, t: Table, r: Outcome, u: Table) {
    && KeepsAuthorized(t, auth, u)
    && (auth.None? ==> r.Failed? && u == t)
    && (r.Done? ==> auth.Some? && u == Restrict(t, auth.value))
  }

  ghost predicate FileLists(l: Layers) { Lists(EntriesOf(l.file), l.table) }

  /** The three layers hold the same peers. */
  ghost predicate Equal(l: Layers) { FullOn(l.table, l.held, l.state.wg) }

  /** Every record, and so every WireGuard peer, belongs to an active device of the snapshot. */
  ghost predicate Inside(l: Layers, auth: Snapshot) {
    && (forall id :: id in l.table ==> Authorized(id, auth))
    && (forall k :: k in l.state.wg ==> Authorized(l.state.wg[k].peer.deviceId, auth))
  }

  /**
   One critical section, from one release of the mutex to the next. `others` are the policy
   rules of other applications: if they leave our priorities alone, no command has failed and
   no save fails, then an event whose snapshots can be read does not break off.
   */
  ghost predicate Follows(c: Config, others: seq<PolicyRule>, before: Layers, turn: Turn) {
    var after := turn.layers;
    && TableMoves(c, turn.event, turn.reply, before.table, after.table)
    && (Intact(turn.reply) && Equal(before) ==> Equal(after))
    && (Intact(turn.reply) && FileLists(before) ==> FileLists(after))
    && (turn.event.Tick? && Intact(turn.reply) ==> Inside(after, turn.event.auth))
    && (after.clean ==> before.clean) && (after.flawless ==> before.flawless)
    && before.faults <= after.faults && before.failures <= after.failures
    && (PrioritiesFree(others) && after.flawless && after.failures == before.failures && Readable(turn.event) ==> Intact(turn.reply))
  }

  /** The events were answered in order, up to the end or to the first tick that failed. */
  ghost predicate Answered(events: seq<Event>, served: nat, turns: seq<Turn>) {
    && |turns| == served <= |events|
    && (forall i :: 0 <= i < served ==> turns[i].event == events[i])
    && (forall i :: 0 <= i < served - 1 ==> !Stops(turns[i].event, turns[i].reply))
    && (served < |events| ==> served > 0 && Stops(turns[served - 1].event, turns[served - 1].reply))
  }

  function Last(start: Layers, turns: seq<Turn>): Layers {
    if turns == [] then start else turns[|turns| - 1].layers
  }

  /** Every turn follows from the one before it, the first from `start`. */
  ghost predicate Chained(c: Config, others: seq<PolicyRule>, start: Layers, turns: seq<Turn>) {
    turns == [] ||
    var n := |turns| - 1;
    Chained(c, others, start, turns[..n]) && Follows(c, others, Last(start, turns[..n]), turns[n])
  }

  ghost predicate AllFlawless(start: Layers, turns: seq<Turn>) {
    start.flawless && forall i :: 0 <= i < |turns| ==> turns[i].layers.flawless
  }

  ghost predicate AllClean(start: Layers, turns: seq<Turn>) {
    start.clean && forall i :: 0 <= i < |turns| ==> turns[i].layers.clean
  }

  /** What is remembered of a run: machine states, file contents, failed saves and commands, and whether the uplink stayed sealed. */
  datatype Memory = Memory(visited: set<KState>, held: set<PeersFile>, failures: nat, faults: nat, baseline: nat, clean: bool)

  /** Memory of a later moment. */
  ghost predicate Remembers(before: Memory, after: Memory) {
    && before.visited <= after.visited && before.held <= after.held && before.failures <= after.failures
    && before.faults <= after.faults && before.baseline == after.baseline && (after.clean ==> before.clean)
  }

  /**
   Layers of a moment that has been: the machine was in that state and the disk had that file,
   with so many failures since the interface came up, and who is still clean was so then.
   */
  ghost predicate Kept(m: Memory, l: Layers) {
    && l.state in m.visited && l.file in m.held && l.failures <= m.failures
    && m.baseline <= l.faults <= m.faults && (l.flawless <==> l.faults == m.baseline)
    && (m.clean ==> l.clean)
  }

  /** The layers of these turns were real, and in order. */
  ghost predicate RecordedIn(c: Config, m: Memory, start: Layers, turns: seq<Turn>) {
    && Kept(m, start) && LayersOk(c, start)
    && forall i :: 0 <= i < |turns| ==> Kept(m, turns[i].layers) && LayersOk(c, turns[i].layers)
  }

  lemma NothingRecorded(c: Config, m: Memory, start: Layers)
    requires Kept(m, start) && LayersOk(c, start)
    ensures RecordedIn(c, m, start, [])
  {
  }

  lemma StillRecorded(c: Config, before: Memory, after: Memory, start: Layers, turns: seq<Turn>)
    requires RecordedIn(c, before, start, turns) && Remembers(before, after)
    ensures RecordedIn(c, after, start, turns)
  {
    hide LayersOk;
  }

  lemma RecordedOneMore(c: Config, m: Memory, start: Layers, turns: seq<Turn>, turn: Turn)
    requires RecordedIn(c, m, start, turns) && Kept(m, turn.layers) && LayersOk(c, turn.layers)
    ensures RecordedIn(c, m, start, turns + [turn])
  {
    hide LayersOk, Kept;
  }

  lemma RecordedFlags(c: Config, m: Memory, start: Layers, turns: seq<Turn>)
    requires RecordedIn(c, m, start, turns)
    ensures m.faults == m.baseline ==> AllFlawless(start, turns)
    ensures m.clean ==> AllClean(start, turns)
  {
    hide LayersOk;
  }

  lemma NothingChained(c: Config, others: seq<PolicyRule>, start: Layers)
    ensures Chained(c, others, start, [])
  {
  }

  lemma ChainedOneMore(c: Config, others: seq<PolicyRule>, start: Layers, turns: seq<Turn>, turn: Turn)
    requires Chained(c, others, start, turns) && Follows(c, others, Last(start, turns), turn)
    ensures Chained(c, others, start, turns + [turn]) && Last(start, turns + [turn]) == turn.layers
  {
    assert (turns + [turn])[..|turns|] == turns;
  }

  /** While no operation broke off, the three layers are equal and the file lists the table. */
  lemma {:induction false} EqualWhileIntact(c: Config, others: seq<PolicyRule>, start: Layers, turns: seq<Turn>)
    requires Chained(c, others, start, turns) && forall i :: 0 <= i < |turns| ==> Intact(turns[i].reply)
    ensures Equal(start) ==> forall i :: 0 <= i < |turns| ==> Equal(turns[i].layers)
    ensures FileLists(start) ==> forall i :: 0 <= i < |turns| ==> FileLists(turns[i].layers)
  {
    hide Equal, FileLists, TableMoves, Inside, Intact, PrioritiesFree;
    if turns != [] {
      EqualWhileIntact(c, others, start, turns[..|turns| - 1]);
    }
  }

  /** A run in which nothing failed has no broken operation at all. */
  lemma {:induction false} SmoothIsIntact(c: Config, others: seq<PolicyRule>, start: Layers, turns: seq<Turn>)
    requires Chained(c, others, start, turns) && PrioritiesFree(others)
    requires Last(start, turns).flawless && Last(start, turns).failures == start.failures
    requires forall i :: 0 <= i < |turns| ==> Readable(turns[i].event)
    ensures forall i :: 0 <= i < |turns| ==> Intact(turns[i].reply)
  {
    hide Equal, FileLists, TableMoves, Inside, PrioritiesFree;
    if turns != [] {
      var n := |turns| - 1;
      FailuresGrow(c, others, start, turns[..n]);
      SmoothIsIntact(c, others, start, turns[..n]);
    }
  }

  predicate AllReadable(events: seq<Event>) { forall i :: 0 <= i < |events| ==> Readable(events[i]) }

  /** Every event was answered, none broke off, and the layers were equal throughout. */
  ghost predicate AllWell(events: seq<Event>, served: nat, turns: seq<Turn>) {
    served == |events| && forall i :: 0 <= i < |turns| ==> Intact(turns[i].reply) && Equal(turns[i].layers)
  }

  lemma SmoothRun(c: Config, others: seq<PolicyRule>, start: Layers, turns: seq<Turn>, events: seq<Event>, served: nat)
    requires Chained(c, others, start, turns) && PrioritiesFree(others) && Equal(start)
    requires Last(start, turns).flawless && Last(start, turns).failures == start.failures
    requires Answered(events, served, turns) && AllReadable(events)
    ensures AllWell(events, served, turns)
    ensures FileLists(start) ==> forall i :: 0 <= i < |turns| ==> FileLists(turns[i].layers)
  {
    hide Equal, FileLists, Follows, PrioritiesFree, Chained, Intact, Readable, Last;
    SmoothIsIntact(c, others, start, turns);
    EqualWhileIntact(c, others, start, turns);
  }

  lemma {:induction false} FailuresGrow(c: Config, others: seq<PolicyRule>, start: Layers, turns: seq<Turn>)
    requires Chained(c, others, start, turns)
    ensures start.failures <= Last(start, turns).failures
  {
    hide Equal, FileLists, TableMoves, Inside, PrioritiesFree;
    if turns != [] {
      FailuresGrow(c, others, start, turns[..|turns| - 1]);
    }
  }

  /** No packet of a home-selected device leaves by the uplink. */
  ghost predicate HomeSealed(c: Config, t: Table, s: KState) {
    forall id, pkt, sem: Semantics ::
      id in t && t[id].UsesHome() && FromHostToUplink(c, t[id].host, pkt) ==>
        FirstMatch(s.tables.forward4, pkt, sem) == Some(Drop)
  }

  /** The forward chain decides as the declarative policy for these peers. */
  ghost predicate EnforcesPolicy(c: Config, peers: set<Peer>, s: KState) {
    forall pkt: Packet, sem: Semantics :: pkt.TouchesTunnel() ==>
      FirstMatch(s.tables.forward4, pkt, sem) == Some(if Permitted(c, peers, pkt) then Accept else Drop)
  }

  /**
   WireGuard within the backend within the table, as full records, each device confined to its
   own addresses and a home device's traffic led through the tunnel; and a file that a restart
   accepts. The uplink is sealed while clean, and the whole policy enforced while nothing failed.
   */
  ghost predicate LayersOk(c: Config, l: Layers) {
    && TableOk(l.table) && FileOk(l.file)
    && WgAgrees(c, l.state.wg, l.held)
    && Agreement(l.held, l.table)
    && Confined(c, l.state.wg)
    && (Sorted(OthersOnly(l.state.policy)) ==> RoutedHome(l.state))
    && (l.clean ==> HomeSealed(c, l.table, l.state))
    && (l.flawless ==> l.clean && EnforcesPolicy(c, l.held.Values, l.state) && DecidesAlone(c, l.state))
  }

  lemma HostIdentifies(t: Table, i: string, j: string)
    requires TableOk(t) && i in t && j in t && t[i].host == t[j].host
    ensures i == j
  {
  }

  /** The seal on the uplink follows from the accounting of accept rules and unique hosts. */
  lemma SealedRelease(c: Config, s: KState, held: map<string, Peer>, upper: seq<Rule>, rest: Ground, t: Table)
    requires Sound(c, s, held, upper, rest) && Accounted(c, held, upper)
    requires TableOk(t) && Agreement(held, t)
    ensures HomeSealed(c, t, s)
  {
    forall id, pkt, sem: Semantics | id in t && t[id].UsesHome() && FromHostToUplink(c, t[id].host, pkt)
      ensures FirstMatch(s.tables.forward4, pkt, sem) == Some(Drop)
    {
      forall k | k in held && held[k].host == t[id].host ensures !held[k].UsesUplink() {
        HostIdentifies(t, held[k].deviceId, id);
      }
      assert RecordOk(t[id]);
      AccountedSealsUplink(c, s, held, upper, rest, t[id].host, pkt, sem);
    }
  }

  lemma FlawlessRelease(c: Config, s: KState, held: map<string, Peer>, upper: seq<Rule>, rest: Ground)
    requires Sound(c, s, held, upper, rest) && Complete(c, s, held, upper)
    ensures EnforcesPolicy(c, held.Values, s) && DecidesAlone(c, s)
  {
    hide DecidesAlone;
    DevicesDecideAlone(c, s, held, upper, rest);
    forall pkt: Packet, sem: Semantics | pkt.TouchesTunnel()
      ensures FirstMatch(s.tables.forward4, pkt, sem) == Some(if Permitted(c, held.Values, pkt) then Accept else Drop)
    {
      CompleteEnforcesPolicy(c, s, held, upper, rest, pkt, sem);
    }
  }

  /** Whatever failed, every device is confined and the home devices' way stands. */
  lemma ConfinedRelease(c: Config, s: KState, held: map<string, Peer>, upper: seq<Rule>, rest: Ground)
    requires Safe(s) && Sound(c, s, held, upper, rest)
    ensures Confined(c, s.wg) && (Sorted(OthersOnly(s.policy)) ==> RoutedHome(s))
  {
    hide Confined, RoutedHome, Sorted, OthersOnly, OursOnce;
    DevicesAreConfined(c, s, held, upper, rest);
    if Sorted(rest.policy) { HomeIsRouted(c, s, held, upper, rest); }
  }

  class Manager {
    const config: Config
    const backend: Linux
    const disk: Disk
    var peers: Table

    ghost predicate Valid()
      reads this, backend, backend.machine, disk
    {
      && backend.Ready() && backend.config == config
      && disk.Valid()
      && TableOk(peers)
      && Agreement(backend.peers, peers)
    }

    constructor (config: Config, backend: Linux, disk: Disk, table: Table)
      ensures this.config == config && this.backend == backend && this.disk == disk && peers == table
    {
      this.config, this.backend, this.disk, peers := config, backend, disk, table;
    }

    /** The file lists the table. */
    ghost predicate Saved()
      reads this, disk
    {
      Lists(EntriesOf(disk.file), peers)
    }

    ghost predicate Full()
      reads this, backend, backend.machine
    {
      FullOn(peers, backend.peers, backend.machine.state.wg)
    }

    /** The machine and the disk went on; the seal on the uplink was not regained, nor the ground moved. */
    twostate predicate Progress()
      reads this, backend, backend.machine, disk
    {
      && Onward(backend.machine)
      && old(disk.failures) <= disk.failures && old(disk.held) <= disk.held
      && backend.rest == old(backend.rest)
      && backend.faultsAtUp == old(backend.faultsAtUp) && backend.missedAtUp == old(backend.missedAtUp)
      && (backend.Clean() ==> old(backend.Clean()))
    }

    /** No command has failed since the interface came up, no save just now, and nobody uses our priorities. */
    twostate predicate Smooth()
      reads this, backend, backend.machine, disk
    {
      && backend.machine.faults == backend.faultsAtUp && disk.failures == old(disk.failures)
      && PrioritiesFree(backend.rest.policy)
    }

    /** Of those, what concerns the machine. */
    ghost predicate Unhindered()
      reads backend, backend.machine
    {
      backend.machine.faults == backend.faultsAtUp && PrioritiesFree(backend.rest.policy)
    }

    twostate predicate NothingFailed()
      reads backend.machine, disk
    {
      backend.machine.faults == old(backend.machine.faults) && disk.failures == old(disk.failures)
    }

    /** Nothing has failed in the whole life of machine and disk. */
    ghost predicate Unfailing()
      reads backend.machine, disk
    {
      backend.machine.faults == 0 && disk.failures == 0
    }

    method Save() returns (ok: bool)
      requires TableOk(peers) && disk.Valid()
      modifies disk
      ensures disk.Valid() && old(disk.held) <= disk.held
      ensures ok ==> Saved()
      ensures disk.file == old(disk.file) || Saved()
      ensures disk.failures == old(disk.failures) + if ok then 0 else 1
    {
      var ps := ListTable(peers);
      ListedTableIsAccepted(ps, peers);
      ok := disk.SavePrivate(ps);
    }

    /** Drop one peer from the backend. */
    method Drop(id: string) returns (ok: bool)
      requires Valid() && id in peers
      modifies backend, backend.machine
      ensures Valid() && Quiet(backend.machine)
      ensures Progress()
      ensures backend.peers == if ok then old(backend.peers) - {peers[id].publicKey} else old(backend.peers)
      ensures ok ==> backend.machine.state.wg == old(backend.machine.state.wg) - {peers[id].publicKey}
      ensures backend.machine.faults == backend.faultsAtUp ==> ok
    {
      hide TableOk, Linux.Ready;
      assert ValidKey(peers[id].publicKey) by { KeyIsValid(peers, id); }
      ok := backend.RemovePeer(peers[id].publicKey);
      AgreementWithin(old(backend.peers), backend.peers, peers);
    }

    /** Without authorization records every peer is disabled; the table keeps its records. */
    method DisableAll() returns (ok: bool)
      requires Valid()
      modifies backend, backend.machine
      ensures Valid() && Quiet(backend.machine)
      ensures Progress()
      ensures ok ==> backend.peers == map[] && backend.machine.state.wg == map[]
      ensures forall k :: k in backend.peers ==> k in old(backend.peers)
      ensures backend.machine.faults == backend.faultsAtUp ==> ok
    {
      hide TableOk, Sound, Complete, Accounted, AllSafe;
      var todo := peers.Keys;
      while todo != {}
        invariant todo <= peers.Keys
        invariant Valid() && Quiet(backend.machine)
        invariant Progress()
        invariant forall id :: id in peers && id !in todo ==> peers[id].publicKey !in backend.peers
        invariant forall k :: k in backend.peers ==> k in old(backend.peers)
      {
        var id :| id in todo;
        ok := Drop(id);
        if !ok { return; }
        todo := todo - {id};
      }
      NothingLeft(config, backend.machine.state, backend.peers, backend.upper, backend.rest, peers);
      ok := true;
    }

    /** Take every record outside the snapshot off the backend and off the table. */
    method DropUnauthorized(ids: set<string>) returns (ok: bool, changed: bool)
      requires Valid()
      modifies this`peers, backend, backend.machine
      ensures Valid() && Quiet(backend.machine)
      ensures Progress()
      ensures PartOf(peers, old(peers)) && forall id :: id in old(peers) && id in ids ==> id in peers
      ensures ok ==> peers == Restrict(old(peers), ids) && (changed <==> peers != old(peers))
      ensures forall k :: k in backend.peers ==> k in old(backend.peers)
      ensures backend.machine.faults == backend.faultsAtUp ==> ok
      ensures ok && old(Full()) ==> Full()
    {
      hide TableOk, Linux.Ready, FullOn;
      var todo := peers.Keys;
      changed := false;
      while todo != {}
        invariant todo <= peers.Keys
        invariant Valid() && Quiet(backend.machine)
        invariant Progress()
        invariant changed <==> peers != old(peers)
        invariant forall k :: k in backend.peers ==> k in old(backend.peers)
        invariant PartOf(peers, old(peers)) && forall id :: id in old(peers) && id in ids ==> id in peers
        invariant forall id :: id in peers ==> id in todo || id in ids
        invariant old(Full()) ==> Full()
      {
        var id :| id in todo;
        if id !in ids {
          if old(Full()) { FullWithout(peers, backend.peers, backend.machine.state.wg, id); }
          ok := Drop(id);
          if !ok { return; }
          ForgetRecord(id);
          changed := true;
          assert id in old(peers) && id !in peers;
        }
        todo := todo - {id};
      }
      ok := true;
    }

    /** Take a record off the table once the backend has dropped its key. */
    method ForgetRecord(id: string)
      requires Valid() && id in peers && peers[id].publicKey !in backend.peers
      modifies this`peers
      ensures Valid() && peers == old(peers) - {id}
    {
      AgreementWithout(backend.peers, peers, id);
      PartOfOk(peers - {id}, peers);
      peers := peers - {id};
    }

    /**
     Bring the table inside the authorization snapshot. Success leaves exactly the
     authorized records; a failure never loses an authorized one.
     */
    method Reconcile(auth: Snapshot) returns (r: Outcome)
      requires Valid()
      modifies this`peers, backend, backend.machine, disk
      ensures Valid() && Quiet(backend.machine)
      ensures Progress()
      ensures KeepsAuthorized(old(peers), auth, peers)
      ensures forall k :: k in backend.peers ==> k in old(backend.peers)
      ensures auth.None? ==> r.Failed? && peers == old(peers) && disk.file == old(disk.file)
      ensures r == Failed(AuthorizationsUnavailable) ==> backend.peers == map[] && backend.machine.state.wg == map[]
      ensures r.Done? || r == Failed(SaveFailed) ==> auth.Some? && peers == Restrict(old(peers), auth.value)
      ensures r.Done? && (peers != old(peers) || old(Saved())) ==> Saved()
      ensures r.Done? && peers == old(peers) ==> disk.file == old(disk.file)
      ensures r in {Done, Failed(AuthorizationsUnavailable), Failed(BackendFailed), Failed(SaveFailed)}
      ensures Smooth() && auth.Some? ==> r.Done?
      ensures r.Done? && old(Full()) ==> Full()
    {
      hide TableOk, Linux.Ready, Lists, FullOn;
      match auth
      case None =>
        var ok := DisableAll();
        return Failed(if ok then AuthorizationsUnavailable else BackendFailed);
      case Some(ids) =>
        var ok, changed := DropUnauthorized(ids);
        if !ok { return Failed(BackendFailed); }
        if !changed { return Done; }
        ok := Save();
        return if ok then Done else Failed(SaveFailed);
    }

    /** Exactly this record was installed. */
    twostate predicate Reinstalled(p: Peer)
      reads backend.machine
    {
      backend.machine.installs == old(backend.machine.installs) + [InstalledFor(config, p)]
    }

    /** Put the table back as it was before a record was tried, and its old record into the backend. */
    method Restore(id: string, ghost t: Table, known: bool, previous: Peer)
      requires backend.Ready() && backend.config == config && disk.Valid()
      requires TableOk(t) && Agreement(backend.peers, t)
      requires known == (id in t) && (known ==> previous == t[id])
      requires id in peers && peers - {id} == t - {id}
      modifies this`peers, backend, backend.machine
      ensures Valid() && peers == t
      ensures Progress()
      ensures forall k :: k in backend.machine.state.wg && k !in old(backend.machine.state.wg) ==>
                known && k == previous.publicKey && Reinstalled(previous)
      ensures Unhindered() && !known && FullOn(t, old(backend.peers), old(backend.machine.state.wg)) ==> Full()
      ensures Unhindered() && known && Poised(t, old(backend.peers), old(backend.machine.state.wg), previous) ==> Full()
    {
      hide TableOk, RecordOk, Linux.Ready, MayJoin, Agreement, PeersOk, Sound, FileOk, FullOn, Poised, PrioritiesFree;
      if known {
        assert t[id := previous] == t;
        RecordedId(t, id);
        RestoredTable(peers, t, id);
        peers := peers[id := previous];
        BackendPeersOk();
        CanJoin(backend.peers, t, previous);
        ghost var seen;
        var ok;
        ok, seen := backend.SetPeer(previous);
        AgreementAfterSet(old(backend.peers), backend.peers, t, previous, ok);
        if ok && Poised(t, old(backend.peers), old(backend.machine.state.wg), previous) {
          FullAfterSet(t, old(backend.peers), old(backend.machine.state.wg), previous, backend.machine.state.wg);
        }
      } else {
        assert t - {id} == t;
        peers := peers - {id};
      }
    }

    lemma BackendPeersOk()
      requires backend.Ready()
      ensures PeersOk(backend.peers) && Sound(backend.config, backend.machine.state, backend.peers, backend.upper, backend.rest)
      ensures backend.machine.faults >= backend.faultsAtUp
    {
    }

    /**
     Install a record on the table, in the file and in the backend; or put everything
     back. `p` replaces the record of its device, if any, at the same host.
     */
    method Commit(p: Peer) returns (r: Outcome)
      requires Valid() && TableOk(peers[p.deviceId := p])
      modifies this`peers, backend, backend.machine, disk
      ensures Valid()
      ensures Progress()
      ensures r.Done? ==> peers == old(peers)[p.deviceId := p] && Saved() && backend.Has(p)
      ensures r.Failed? ==> peers == old(peers) && r.failure in {BackendFailed, SaveFailed}
      ensures r.Done? && old(Full()) ==> Full()
      ensures Smooth() ==> r.Done?
      ensures r == Failed(SaveFailed) && Unhindered() && old(Full()) ==> Full()
      ensures r == Failed(BackendFailed) && disk.failures == old(disk.failures) && old(Saved()) ==> Saved()
    {
      hide TableOk, RecordOk, Linux.Ready, MayJoin, Lists, PeersOk, Agreement, Sound, FileOk, FullOn, Poised, PrioritiesFree;
      var id := p.deviceId;
      ghost var t := peers;
      var known := id in peers;
      var previous := if known then peers[id] else p;
      if known && previous.publicKey != p.publicKey {
        if Full() { FullWithout(t, backend.peers, backend.machine.state.wg, id); }
        var ok := Drop(id);
        if !ok { return Failed(BackendFailed); }
      }
      if old(Full()) {
        PoisedWhenFull(t, backend.peers, backend.machine.state.wg, p);
        if known {
          RecordedId(t, id);
          PoisedBefore(t, backend.peers, backend.machine.state.wg, id);
        }
      }
      r := Record(p, known, previous);
    }

    /** Write the record to the file, and activate it; its device's old key, if another, is out of the backend. */
    method Record(p: Peer, known: bool, previous: Peer) returns (r: Outcome)
      requires Valid() && TableOk(peers[p.deviceId := p])
      requires known == (p.deviceId in peers) && (known ==> previous == peers[p.deviceId])
      requires known ==> previous.publicKey == p.publicKey || previous.publicKey !in backend.peers
      modifies this`peers, backend, backend.machine, disk
      ensures Valid()
      ensures Progress()
      ensures r.Done? ==> peers == old(peers)[p.deviceId := p] && Saved() && backend.Has(p)
      ensures r.Failed? ==> peers == old(peers) && r.failure in {BackendFailed, SaveFailed}
      ensures r.Done? && Poised(old(peers), old(backend.peers), old(backend.machine.state.wg), p) ==> Full()
      ensures Smooth() ==> r.Done?
      ensures r == Failed(SaveFailed) && Unhindered() && !known && old(Full()) ==> Full()
      ensures r == Failed(SaveFailed) && Unhindered() && known ==>
                (Poised(old(peers), old(backend.peers), old(backend.machine.state.wg), previous) ==> Full())
      ensures r == Failed(BackendFailed) && disk.failures == old(disk.failures) ==> Saved()
    {
      hide TableOk, RecordOk, Linux.Ready, MayJoin, Lists, PeersOk, Agreement, Sound, FileOk, FullOn, Poised, PrioritiesFree;
      var id := p.deviceId;
      ghost var t := peers;
      peers := peers[id := p];
      assert peers - {id} == t - {id};
      var ok := Save();
      if !ok {
        Restore(id, t, known, previous);
        return Failed(SaveFailed);
      }
      r := Activate(p, t, known, previous);
    }

    /** The backend half of a commit; a record that cannot be activated is rolled back everywhere. */
    method Activate(p: Peer, ghost t: Table, known: bool, previous: Peer) returns (r: Outcome)
      requires backend.Ready() && backend.config == config && disk.Valid()
      requires TableOk(t) && Agreement(backend.peers, t)
      requires known == (p.deviceId in t) && (known ==> previous == t[p.deviceId])
      requires known ==> previous.publicKey == p.publicKey || previous.publicKey !in backend.peers
      requires peers == t[p.deviceId := p] && TableOk(peers) && Saved()
      modifies this`peers, backend, backend.machine, disk
      ensures Valid()
      ensures Progress()
      ensures r.Done? ==> peers == t[p.deviceId := p] && Saved() && backend.Has(p)
      ensures r.Failed? ==> peers == t && r.failure == BackendFailed
      ensures r.Failed? && disk.failures == old(disk.failures) ==> Saved()
      ensures r.Done? && Poised(t, old(backend.peers), old(backend.machine.state.wg), p) ==> Full()
      ensures Smooth() ==> r.Done?
    {
      hide TableOk, RecordOk, Linux.Ready, MayJoin, Lists, PeersOk, Agreement, Sound, FileOk, FullOn, Poised, PrioritiesFree, ValidKey;
      ghost var held := backend.peers;
      BackendPeersOk();
      CanJoin(held, t, p);
      ghost var seen;
      var ok;
      ok, seen := backend.SetPeer(p);
      if ok {
        if Poised(t, held, old(backend.machine.state.wg), p) {
          FullAfterSet(t, held, old(backend.machine.state.wg), p, backend.machine.state.wg);
        }
        return Done;
      }
      AgreementWithin(held, backend.peers, t);
      KeyIsValid(peers, p.deviceId);
      RollBack(p, t, known, previous);
      return Failed(BackendFailed);
    }

    /**
     Undo a commit whose record could not be activated. The key is taken out of WireGuard first, so
     unless a command fails whatever is served under it afterwards is the old record, put back.
     */
    method RollBack(p: Peer, ghost t: Table, known: bool, previous: Peer)
      requires backend.Ready() && backend.config == config && disk.Valid()
      requires TableOk(t) && Agreement(backend.peers, t)
      requires known == (p.deviceId in t) && (known ==> previous == t[p.deviceId])
      requires peers == t[p.deviceId := p] && ValidKey(p.publicKey)
      modifies this`peers, backend, backend.machine, disk
      ensures Valid() && Progress() && peers == t
      ensures backend.machine.faults == old(backend.machine.faults) && p.publicKey in backend.machine.state.wg ==>
                known && p.publicKey == previous.publicKey && Reinstalled(previous)
      ensures disk.failures == old(disk.failures) ==> Saved()
    {
      hide TableOk, RecordOk, Linux.Ready, Lists, PeersOk, Agreement, Sound, FileOk;
      ghost var held := backend.peers;
      var _ := backend.RemovePeer(p.publicKey);
      AgreementWithin(held, backend.peers, t);
      assert peers - {p.deviceId} == t - {p.deviceId};
      Restore(p.deviceId, t, known, previous);
      var _ := Save();
    }

    method ProfileOf(p: Peer) returns (profile: Profile)
      requires TableOk(peers) && (p.UsesHome() ==> HasService(peers))
      ensures Describes(config, peers, profile, p)
    {
      hide ValidId, ValidKey, ValidServiceName;
      profile := Profile(VPS, config.name, config.Address(p.host), []);
      if p.UsesHome() {
        var id :| id in peers && peers[id].service;
        assert RecordOk(peers[id]);
        var routes := ManagementRoutes(peers[id].management);
        profile := Profile(HOME, peers[id].name, profile.address, routes.value);
      }
    }

    /** Grant a request on the reconciled table, or say why not. */
    method Grant(request: Peer) returns (r: Result<Profile, Failure>)
      requires Valid() && RequestOk(request) && ValidId(request.deviceId) && ValidKey(request.publicKey)
      modifies this`peers, backend, backend.machine, disk
      ensures Valid() && Progress()
      ensures r.Ok? ==> Granted(request, old(peers), peers) && Saved()
      ensures r.Ok? ==> request.deviceId in peers && backend.Has(peers[request.deviceId]) && Describes(config, peers, r.value, peers[request.deviceId])
      ensures r.Err? ==> peers == old(peers) && AfterReconcile(r.error) && (Refusal(r.error) ==> Refused(request, peers, r.error))
      ensures FailureClass(r) != Broken && old(Full()) ==> Full()
      ensures FailureClass(r) != Broken && old(Saved()) ==> Saved()
      ensures Smooth() ==> FailureClass(r) != Broken
    {
      hide TableOk, RecordOk, Linux.Ready, Lists, Agreement, Refused, ValidId, ValidKey, Describes, RequestOk;
      hide FullOn, Granted, Allocated, FileOk, PrioritiesFree;
      var outcome := Admit(peers, request);
      if outcome.Failed? {
        OnlyRefusals(request, peers, outcome.failure);
        return Err(outcome.failure);
      }
      ghost var t := peers;
      var host: int;
      if request.deviceId in peers {
        host := peers[request.deviceId].host;
        HostOfRecord(peers, request.deviceId);
      } else {
        RoomForOne(peers, request);
        host := AllocateHost(peers);
        FirstFreeHost(peers, request.deviceId, host);
      }
      GrantedTableOk(peers, request, host);
      var p := request.(host := host);
      outcome := Commit(p);
      if outcome.Failed? { return Err(outcome.failure); }
      ServiceStays(t, request, p);
      GrantedBy(request, t, host);
      var profile := ProfileOf(p);
      return Ok(profile);
    }

    /**
     Register a device, all or nothing. `auth` is the snapshot of the first authorization
     check, `later` that of the reconciliation, which reads the records again.
     */
    method Register(request: Peer, auth: Snapshot, later: Snapshot) returns (r: Result<Profile, Failure>)
      requires Valid() && RequestOk(request)
      modifies this`peers, backend, backend.machine, disk
      ensures Valid() && Progress()
      ensures RegistersTo(request, auth, later, old(peers), r, peers)
      ensures r.Ok? ==> request.deviceId in peers && Saved()
      ensures r.Ok? ==> request.deviceId in peers && backend.Has(peers[request.deviceId]) && Describes(config, peers, r.value, peers[request.deviceId])
      ensures FailureClass(r) != Broken && old(Full()) ==> Full()
      ensures FailureClass(r) != Broken && old(Saved()) ==> Saved()
      ensures r.Err? && !AfterReconcile(r.error) && !r.error.ReconcileFailed? ==>
                backend.machine.state == old(backend.machine.state) && disk.file == old(disk.file)
      ensures Smooth() && later.Some? ==> FailureClass(r) != Broken
    {
      hide TableOk, RecordOk, Linux.Ready, Lists, Agreement, Refused, ValidId, ValidKey, Describes, RequestOk;
      hide FullOn, Granted, Restrict, KeepsAuthorized, FileOk, PrioritiesFree;
      if !ValidId(request.deviceId) { return Err(InvalidIdentity); }
      if !ValidKey(request.publicKey) { return Err(InvalidKey); }
      if !Authorized(request.deviceId, auth) { return Err(NotAuthorized); }
      BackendPeersOk();
      var outcome := Reconcile(later);
      if outcome.Failed? { return Err(ReconcileFailed(outcome.failure)); }
      r := Grant(request);
    }

    method RegisterExit(id: string, key: string, exit: string, first: Snapshot, later: Snapshot)
      returns (r: Result<Profile, Failure>)
      requires Valid()
      modifies this`peers, backend, backend.machine, disk
      ensures Valid()
      ensures Progress()
      ensures exit !in {"", VPS, HOME} ==> r == Err(UnknownExit) && peers == old(peers)
      ensures exit in {"", VPS, HOME} ==> RegistersTo(ExitRequest(id, key, exit), first, later, old(peers), r, peers)
      ensures r.Ok? ==> ExitGranted(config, peers, id, key, exit, r.value)
      ensures FailureClass(r) != Broken && old(Full()) ==> Full()
      ensures FailureClass(r) != Broken && old(Saved()) ==> Saved()
      ensures Smooth() && later.Some? ==> FailureClass(r) != Broken
    {
      hide Manager.Valid, PrioritiesFree, Describes, Granted, KeepsAuthorized, Refused, Restrict, FullOn, Lists;
      var chosen := if exit == "" then VPS else exit;
      if chosen != VPS && chosen != HOME { return Err(UnknownExit); }
      var request := ExitRequest(id, key, exit);
      r := Register(request, first, later);
      if r.Ok? { GrantedRecord(request, Restrict(old(peers), later.value), peers); }
    }

    method RegisterService(id: string, key: string, name: string, management: seq<Option<int>>,
                           first: Snapshot, later: Snapshot) returns (r: Result<Profile, Failure>)
      requires Valid()
      modifies this`peers, backend, backend.machine, disk
      ensures Valid()
      ensures Progress()
      ensures !ValidServiceName(name) || !ManagementOk(management) ==> r == Err(BadServiceRequest) && peers == old(peers)
      ensures ValidServiceName(name) && ManagementOk(management) ==>
                RegistersTo(ServiceRequest(id, key, name, management), first, later, old(peers), r, peers)
      ensures FailureClass(r) != Broken && old(Full()) ==> Full()
      ensures FailureClass(r) != Broken && old(Saved()) ==> Saved()
      ensures Smooth() && later.Some? ==> FailureClass(r) != Broken
      ensures r.Ok? ==> ServiceGranted(config, peers, id, key, name, management, r.value)
    {
      hide Manager.Valid, PrioritiesFree, FullOn, Lists, ValidServiceName, Granted, KeepsAuthorized, Refused, Restrict;
      if !ValidServiceName(name) { return Err(BadServiceRequest); }
      var routes := ManagementRoutes(management);
      if routes.None? { return Err(BadServiceRequest); }
      var request := ServiceRequest(id, key, name, management);
      r := Register(request, first, later);
      if r.Ok? {
        GrantedRecord(request, Restrict(old(peers), later.value), peers);
        r := Ok(r.value.(exitId := HOME, exitName := name));
      }
    }

    /** Forget one device on request. */
    method Remove(id: string) returns (r: Outcome)
      requires Valid()
      modifies this`peers, backend, backend.machine, disk
      ensures Valid()
      ensures Progress()
      ensures r == Failed(InvalidIdentity) <==> !ValidId(id)
      ensures !ValidId(id) ==> peers == old(peers)
      ensures ValidId(id) && (r.Done? || r == Failed(SaveFailed)) ==> peers == old(peers) - {id}
      ensures r.Done? && id in old(peers) ==> Saved()
      ensures r == Failed(BackendFailed) ==> peers == old(peers)
      ensures r in {Done, Failed(InvalidIdentity), Failed(BackendFailed), Failed(SaveFailed)}
      ensures r in {Done, Failed(InvalidIdentity)} && old(Full()) ==> Full()
      ensures r in {Done, Failed(InvalidIdentity)} && old(Saved()) ==> Saved()
      ensures Smooth() ==> r in {Done, Failed(InvalidIdentity)}
    {
      hide TableOk, Linux.Ready, Lists, ValidId, Agreement, FullOn, PrioritiesFree;
      if !ValidId(id) { return Failed(InvalidIdentity); }
      if id !in peers { return Done; }
      if Full() { FullWithout(peers, backend.peers, backend.machine.state.wg, id); }
      var ok := Drop(id);
      if !ok { return Failed(BackendFailed); }
      ForgetRecord(id);
      ok := Save();
      return if ok then Done else Failed(SaveFailed);
    }

    /** The layers as the mutex is released. */
    ghost function Now(): Layers
      reads this, backend, backend.machine, disk
    {
      Layers(peers, backend.peers, backend.machine.state, disk.file, backend.Clean(),
             backend.machine.faults == backend.faultsAtUp, backend.machine.faults, disk.failures)
    }

    /** What machine, disk and backend know of the run so far. */
    ghost function Known(): Memory
      reads backend, backend.machine, disk
    {
      Memory(backend.machine.visited, disk.held, disk.failures, backend.machine.faults, backend.faultsAtUp, backend.Clean())
    }

    ghost predicate Recorded(start: Layers, turns: seq<Turn>)
      reads backend, backend.machine, disk
    {
      RecordedIn(config, Known(), start, turns)
    }

    lemma NowIsOk()
      requires Valid()
      ensures LayersOk(config, Now()) && Kept(Known(), Now())
    {
      hide TableOk, Layout, PolicyLayout, Complete, PeersOk, FileOk, Confined, RoutedHome, DecidesAlone, Sorted, OthersOnly;
      var m := backend.machine;
      m.SafeNow();
      ConfinedRelease(config, m.state, backend.peers, backend.upper, backend.rest);
      if backend.Clean() { SealedRelease(config, m.state, backend.peers, backend.upper, backend.rest, peers); }
      if m.faults == backend.faultsAtUp {
        FlawlessRelease(config, m.state, backend.peers, backend.upper, backend.rest);
      }
    }

    ghost predicate Served(id: string)
      reads this, backend, backend.machine
    {
      ServedOn(peers, backend.peers, backend.machine.state.wg, id)
    }

    /** Install one record of the table. */
    method InstallOne(id: string) returns (ok: bool)
      requires Valid() && id in peers
      modifies backend, backend.machine
      ensures Valid() && Progress()
      ensures backend.machine.faults == backend.faultsAtUp && PrioritiesFree(backend.rest.policy) ==> ok
      ensures ok ==> forall x :: x in peers && old(Served(x)) ==> Served(x)
      ensures ok && peers[id].publicKey !in old(backend.peers) ==> Served(id)
      ensures forall k :: k in backend.peers ==> k in old(backend.peers) || k == peers[id].publicKey
      ensures InstalledOnly(id, old(backend.machine.installs), backend.machine.installs)
    {
      hide TableOk, Linux.Ready, MayJoin, Agreement, PeersOk, Sound, ServedOn, PrioritiesFree;
      BackendPeersOk();
      RecordedId(peers, id);
      assert peers[id := peers[id]] == peers;
      CanJoin(backend.peers, peers, peers[id]);
      ghost var seen;
      ok, seen := backend.SetPeer(peers[id]);
      AgreementAfterSet(old(backend.peers), backend.peers, peers, peers[id], ok);
      if ok {
        ServedAfterSet(peers, old(backend.peers), old(backend.machine.state.wg), id, backend.machine.state.wg);
      }
      assert InstalledFor(config, peers[id]).peer.deviceId == id;
    }

    lemma ReadyIsSafe()
      requires backend.Ready()
      ensures backend.machine.AlwaysSafe()
    {
    }

    /** Install the whole table into a backend that holds none of it. */
    method InstallAll() returns (ok: bool)
      requires Valid() && backend.peers == map[]
      modifies backend, backend.machine
      ensures Valid() && Progress()
      ensures ok ==> Full()
      ensures backend.machine.faults == backend.faultsAtUp && PrioritiesFree(backend.rest.policy) ==> ok
      ensures InstalledFrom(peers, old(backend.machine.installs), backend.machine.installs)
    {
      hide TableOk, Linux.Ready, Agreement, ServedOn, FullOn, PrioritiesFree;
      ok := true;
      ghost var installs := backend.machine.installs;
      var todo := peers.Keys;
      while todo != {} && ok
        invariant Valid() && todo <= peers.Keys && Progress()
        invariant backend.machine.faults == backend.faultsAtUp && PrioritiesFree(backend.rest.policy) ==> ok
        invariant ok ==> forall x :: x in peers && x !in todo ==> Served(x)
        invariant ok ==> forall x :: x in todo ==> peers[x].publicKey !in backend.peers
        invariant InstalledFrom(peers, installs, backend.machine.installs)
        decreases todo
      {
        var id :| id in todo;
        ghost var before := backend.machine.installs;
        OwnKeys(peers, id);
        ok := InstallOne(id);
        InstalledOneMore(peers, installs, before, backend.machine.installs, id);
        todo := todo - {id};
      }
      if ok { EveryoneServed(peers, backend.peers, backend.machine.state.wg); }
    }

    /**
     Bring the backend up, reconcile, and only then install peers. Nothing outside the
     startup snapshot is ever installed, however stale the table loaded from the file.
     */
    method Startup(routes4: Routes.Listing, routes6: Routes.Listing, auth: Snapshot)
      returns (up: bool, ok: bool)
      requires backend.machine.AlwaysSafe() && disk.Valid() && TableOk(peers)
      requires Routes.WellFormed(routes4) && Routes.WellFormed(routes6)
      modifies this`peers, backend, backend.machine, disk
      ensures backend.machine.AlwaysSafe() && disk.Valid() && TableOk(peers)
      ensures Onward(backend.machine) && old(disk.held) <= disk.held && old(disk.failures) <= disk.failures
      ensures up ==> Valid() && backend.rest == FoundBy(old(backend.machine.state)) && !old(backend.machine.state).foreignRoutes
      ensures up ==> old(backend.machine.state).forwarding
      ensures ok ==> up && auth.Some? && Full() && peers == Restrict(old(peers), auth.value)
      ensures ok && old(Saved()) ==> Saved()
      ensures InstalledFrom(if auth.Some? then Restrict(old(peers), auth.value) else map[],
                            old(backend.machine.installs), backend.machine.installs)
      ensures up ==> old(backend.machine.faults) <= backend.faultsAtUp && old(backend.machine.missedOpenings) <= backend.missedAtUp
      ensures CanStart(old(backend.machine.state), routes4, routes6, auth) && NothingFailed() ==> ok
      ensures !up ==> !Fit(config, old(backend.machine.state), routes4, routes6) || backend.machine.faults > old(backend.machine.faults)
      ensures Refuses(old(backend.machine.state)) ==> !up && backend.machine.state == old(backend.machine.state)
      ensures !up && !Refuses(old(backend.machine.state)) ==> Gone()
    {
      hide TableOk, Linux.Ready, Swept, OthersOnly, Agreement, Lists, AllSafe, FullOn, Fit, PrioritiesFree, TornDown;
      ghost var raised;
      up, raised := backend.Up(config, routes4, routes6);
      if !up { NoLinkNoWg(); return false, false; }
      NoneHeld(peers);
      var outcome := Reconcile(auth);
      if outcome.Failed? { ReadyIsSafe(); return true, false; }
      NothingMore(backend.peers);
      ok := InstallAll();
      ReadyIsSafe();
    }

    /** A configuration or an interface that the helper does not touch. */
    ghost predicate Refuses(s: KState) { !config.Valid() || s.link == Unowned }

    /** The interface is gone and with it every peer, or the command that deletes it has failed. */
    twostate predicate Gone()
      reads backend.machine
    {
      || (backend.machine.state.link == Absent && backend.machine.state.wg == map[])
      || backend.machine.deleteFaults > old(backend.machine.deleteFaults)
    }

    lemma NoLinkNoWg()
      requires backend.machine.AlwaysSafe()
      ensures backend.machine.state.link == Absent ==> backend.machine.state.wg == map[]
    {
      backend.machine.SafeNow();
    }

    /** What other applications have on the machine. */
    ghost function FoundBy(s: KState): Ground { Ground(Swept(s.tables), OthersOnly(s.policy)) }

    /** A machine with what other applications wrote, and nothing else. */
    ghost function Vacated(g: Ground): KState { KState(g.tables, Absent, map[], g.policy, false, false, false, {}, true) }

    lemma VacatedIsTornDown(s: KState)
      requires !s.foreignRoutes && s.forwarding
      ensures Vacated(FoundBy(s)) == TornDown(s)
    {
    }

    /** What must hold for a start to succeed unless something fails. */
    ghost predicate CanStart(s: KState, routes4: Routes.Listing, routes6: Routes.Listing, auth: Snapshot)
      requires Routes.WellFormed(routes4) && Routes.WellFormed(routes6)
    {
      Fit(config, s, routes4, routes6) && auth.Some? && PrioritiesFree(OthersOnly(s.policy))
    }

    lemma TableInside(auth: Snapshot)
      requires Valid() && auth.Some? && forall id :: id in peers ==> id in auth.value
      ensures Inside(Now(), auth)
    {
      hide TableOk, Layout, PolicyLayout, Complete, Accounted, PeersOk;
    }

    method HandleReconciliation(e: Event, auth: Snapshot) returns (reply: Reply)
      requires Valid() && (e == Tick(auth) || e == Query(auth))
      modifies this`peers, backend, backend.machine, disk
      ensures Valid() && Progress() && Follows(config, backend.rest.policy, old(Now()), Turn(e, reply, Now()))
    {
      hide TableOk, Linux.Ready, Lists, Agreement, FullOn, Inside, PrioritiesFree, KeepsAuthorized;
      hide RegistersTo, ExitGranted, ServiceGranted, ManagementOk;
      BackendPeersOk();
      var outcome := Reconcile(auth);
      reply := Reconciled(outcome);
      if outcome.Done? { TableInside(auth); }
    }

    method HandleRegistration(e: Event) returns (reply: Reply)
      requires Valid() && (e.Exit? || e.Service?)
      modifies this`peers, backend, backend.machine, disk
      ensures Valid() && Progress() && Follows(config, backend.rest.policy, old(Now()), Turn(e, reply, Now()))
    {
      hide Manager.Valid, Lists, FullOn, RegistersTo, Inside, PrioritiesFree, ValidServiceName, ManagementOk;
      BaselineOk();
      match e
      case Exit(id, key, exit, first, later) =>
        var r := RegisterExit(id, key, exit, first, later);
        reply := Registered(r);
      case Service(id, key, name, management, first, later) =>
        var r := RegisterService(id, key, name, management, first, later);
        reply := Registered(r);
    }

    method HandleRemoval(e: Event) returns (reply: Reply)
      requires Valid() && e.Removal?
      modifies this`peers, backend, backend.machine, disk
      ensures Valid() && Progress() && Follows(config, backend.rest.policy, old(Now()), Turn(e, reply, Now()))
    {
      hide Manager.Valid, Lists, FullOn, Inside, PrioritiesFree, ValidId;
      BaselineOk();
      var outcome := Remove(e.id);
      reply := Forgotten(outcome);
    }

    lemma BaselineOk()
      requires Valid()
      ensures backend.machine.faults >= backend.faultsAtUp && backend.machine.missedOpenings >= backend.missedAtUp && disk.Valid()
    {
      hide TableOk, Agreement;
    }

    /** One critical section: the layers it leaves follow from those it found by the event and the reply. */
    method Handle(e: Event) returns (reply: Reply)
      requires Valid()
      modifies this`peers, backend, backend.machine, disk
      ensures Valid() && Progress()
      ensures Follows(config, backend.rest.policy, old(Now()), Turn(e, reply, Now()))
    {
      hide Manager.Valid, Follows, Manager.Now;
      if e.Tick? || e.Query? {
        reply := HandleReconciliation(e, e.auth);
      } else if e.Exit? || e.Service? {
        reply := HandleRegistration(e);
      } else {
        reply := HandleRemoval(e);
      }
    }

    /** Answer one event and add its turn to the record. */
    method TakeTurn(e: Event, ghost start: Layers, ghost turns: seq<Turn>) returns (reply: Reply, ghost turn: Turn)
      requires Valid() && Recorded(start, turns)
      requires Chained(config, backend.rest.policy, start, turns) && Last(start, turns) == Now()
      modifies this`peers, backend, backend.machine, disk
      ensures Valid() && Progress() && Recorded(start, turns + [turn])
      ensures Chained(config, backend.rest.policy, start, turns + [turn]) && Last(start, turns + [turn]) == Now()
      ensures turn.event == e && turn.reply == reply
    {
      hide Manager.Valid, LayersOk, Follows, Chained, Kept, RecordedIn, Manager.Now;
      BaselineOk();
      ghost var before := Known();
      reply := Handle(e);
      StillRecorded(config, before, Known(), start, turns);
      turn := Turn(e, reply, Now());
      NowIsOk();
      ChainedOneMore(config, backend.rest.policy, start, turns, turn);
      RecordedOneMore(config, Known(), start, turns, turn);
    }

    /**
     Answer events until they end or a tick's reconciliation fails. `turns` is what every
     release of the mutex left, one after the other, from the layers found to those left.
     */
    method Answer(events: seq<Event>) returns (served: nat, ghost turns: seq<Turn>)
      requires Valid()
      modifies this`peers, backend, backend.machine, disk
      ensures Valid() && Progress()
      ensures Answered(events, served, turns) && Chained(config, backend.rest.policy, old(Now()), turns)
      ensures Last(old(Now()), turns) == Now()
      ensures Recorded(old(Now()), turns)
    {
      hide Manager.Valid, LayersOk, Follows, Chained, Kept, RecordedIn, Manager.Now, Manager.Known;
      ghost var start, others := Now(), backend.rest.policy;
      NowIsOk();
      NothingRecorded(config, Known(), start);
      served, turns := 0, [];
      NothingChained(config, others, start);
      var stop := false;
      while served < |events| && !stop
        invariant served <= |events| && |turns| == served && Valid() && Progress()
        invariant Chained(config, others, start, turns) && Last(start, turns) == Now() && Recorded(start, turns)
        invariant forall i :: 0 <= i < |turns| ==> turns[i].event == events[i]
        invariant forall i :: 0 <= i < |turns| && Stops(turns[i].event, turns[i].reply) ==> i == served - 1 && stop
        invariant stop ==> served > 0 && Stops(turns[served - 1].event, turns[served - 1].reply)
        decreases |events| - served
      {
        ghost var turn;
        var reply;
        reply, turn := TakeTurn(events[served], start, turns);
        stop := events[served].Tick? && !Intact(reply);
        served, turns := served + 1, turns + [turn];
      }
    }

    /** Start up and take note of the layers at the first release of the mutex. */
    method Begin(routes4: Routes.Listing, routes6: Routes.Listing, auth: Snapshot)
      returns (up: bool, started: bool, ghost start: Layers)
      requires backend.machine.AlwaysSafe() && disk.Valid() && TableOk(peers)
      requires Routes.WellFormed(routes4) && Routes.WellFormed(routes6)
      modifies this`peers, backend, backend.machine, disk
      ensures backend.machine.AlwaysSafe() && disk.Valid()
      ensures Onward(backend.machine) && old(disk.held) <= disk.held && old(disk.failures) <= disk.failures
      ensures up ==> Valid() && Vacated(backend.rest) == TornDown(old(backend.machine.state))
      ensures up ==> backend.rest.policy == OthersOnly(old(backend.machine.state).policy)
      ensures up ==> old(backend.machine.faults) <= backend.faultsAtUp <= backend.machine.faults
      ensures up ==> old(backend.machine.missedOpenings) <= backend.missedAtUp <= backend.machine.missedOpenings
      ensures up ==> Kept(Known(), start) && start == Now() && LayersOk(config, start)
      ensures started ==> up && Equal(start)
      ensures !up ==> !Fit(config, old(backend.machine.state), routes4, routes6) || backend.machine.faults > old(backend.machine.faults)
      ensures Refuses(old(backend.machine.state)) ==> !up && backend.machine.state == old(backend.machine.state)
      ensures !up && !Refuses(old(backend.machine.state)) ==> Gone()
      ensures started ==> auth.Some? && start.table == Restrict(old(peers), auth.value)
      ensures started && old(Saved()) ==> FileLists(start)
      ensures CanStart(old(backend.machine.state), routes4, routes6, auth) && NothingFailed() ==> started
    {
      hide Manager.Valid, LayersOk, Swept, OthersOnly, AllSafe, Restrict, PrioritiesFree, Fit, Lists, FullOn, TornDown;
      hide Manager.FoundBy, Manager.Vacated, Manager.Refuses;
      up, started := Startup(routes4, routes6, auth);
      start := Now();
      if up {
        VacatedIsTornDown(old(backend.machine.state));
        FoundPolicy(old(backend.machine.state));
        BaselineOk();
        NowIsOk();
      }
    }

    lemma FoundPolicy(s: KState)
      ensures FoundBy(s).policy == OthersOnly(s.policy)
    {
    }

    /**
     One life of the helper, from a machine left by any crash and whatever table its file
     held: come up, answer events, go down. It is `up` once the interface stands and `started`
     once the startup snapshot's peers are all installed; `start` and `turns` are what the
     mutex releases left from the end of the startup on. However a life ends, the interface is
     gone and every peer with it, unless the very command that deletes it failed.
     */
    method Serve(routes4: Routes.Listing, routes6: Routes.Listing, auth: Snapshot, events: seq<Event>)
      returns (up: bool, started: bool, served: nat, down: bool, ghost start: Layers, ghost turns: seq<Turn>)
      requires backend.machine.AlwaysSafe() && disk.Valid() && TableOk(peers)
      requires Routes.WellFormed(routes4) && Routes.WellFormed(routes6)
      modifies this`peers, backend, backend.machine, disk
      ensures backend.machine.AlwaysSafe() && disk.Valid()
      ensures old(backend.machine.visited) <= backend.machine.visited && old(disk.held) <= disk.held
      ensures started ==> up
      ensures !started ==> served == 0 && turns == []
      ensures started ==> auth.Some? && start.table == Restrict(old(peers), auth.value)
      ensures started ==> Equal(start) && (old(Saved()) ==> FileLists(start))
      ensures started ==> Answered(events, served, turns)
      ensures up ==> Recorded(start, turns) && Chained(config, OthersOnly(old(backend.machine.state).policy), start, turns)
      ensures up ==> Last(start, turns).table == peers
      ensures up && backend.machine.faults == old(backend.machine.faults) ==> AllFlawless(start, turns)
      ensures up && NothingExposed() ==> AllClean(start, turns)
      ensures up && down ==> backend.machine.state == TornDown(Last(start, turns).state)
      ensures up && !down ==> backend.machine.faults > Last(start, turns).faults
      ensures down ==> up && backend.machine.state == TornDown(old(backend.machine.state))
      ensures Refuses(old(backend.machine.state)) ==> !up && backend.machine.state == old(backend.machine.state)
      ensures !Refuses(old(backend.machine.state)) ==> Gone()
      ensures Fit(config, old(backend.machine.state), routes4, routes6) && backend.machine.faults == old(backend.machine.faults) ==> up && down
      ensures CanStart(old(backend.machine.state), routes4, routes6, auth) && AllReadable(events) && NothingFailed() ==>
                started && AllWell(events, served, turns)
    {
      hide Manager.Valid, Equal, FileLists, LayersOk, Chained, Answered, AllWell, Swept, OthersOnly, AllSafe, Restrict;
      hide AllFlawless, AllClean, RecordedIn, Manager.Now, Manager.Refuses;
      hide Disk.Valid, PrioritiesFree, Fit, Lists, Last, TornDown, Manager.Vacated, Manager.CanStart, Manager.Saved, AllReadable;
      served, down, turns := 0, false, [];
      up, started, start := Begin(routes4, routes6, auth);
      if !up { FitToStart(old(backend.machine.state), routes4, routes6, auth); return; }
      served, turns := Attend(started, start, events);
      FreePriorities(old(backend.machine.state), routes4, routes6, auth);
      if started && PrioritiesFree(backend.rest.policy) && AllReadable(events) && NothingFailed() {
        SmoothRun(config, backend.rest.policy, start, turns, events, served);
      }
      BaselineOk();
      ghost var before := Known();
      down := GoDown();
      StillRecorded(config, before, Known(), start, turns);
      RecordedFlags(config, Known(), start, turns);
    }

    /** Answer the events of a life that has started; one that has not is about to stop. */
    method Attend(started: bool, ghost start: Layers, events: seq<Event>) returns (served: nat, ghost turns: seq<Turn>)
      requires Valid() && start == Now()
      modifies this`peers, backend, backend.machine, disk
      ensures Valid() && Progress()
      ensures started ==> Answered(events, served, turns)
      ensures !started ==> served == 0 && turns == []
      ensures Chained(config, backend.rest.policy, start, turns) && Recorded(start, turns)
      ensures Last(start, turns) == Now() && Last(start, turns).table == peers && start.failures == old(disk.failures)
      ensures Last(start, turns).failures == disk.failures && Last(start, turns).faults == backend.machine.faults
      ensures Last(start, turns).flawless == (backend.machine.faults == backend.faultsAtUp)
      ensures Last(start, turns).state == backend.machine.state
    {
      hide Manager.Valid, LayersOk, Chained, Answered, RecordedIn, Kept;
      served, turns := 0, [];
      NowIsOk();
      NothingRecorded(config, Known(), start);
      NothingChained(config, backend.rest.policy, start);
      if started { served, turns := Answer(events); }
    }

    /** No accept was missed by a check since the start of the run, and none was left behind by a failed setup. */
    twostate predicate NothingExposed()
      reads backend, backend.machine
    {
      backend.machine.missedOpenings == old(backend.machine.missedOpenings) && !backend.lost
    }

    lemma FreePriorities(s: KState, routes4: Routes.Listing, routes6: Routes.Listing, auth: Snapshot)
      requires Routes.WellFormed(routes4) && Routes.WellFormed(routes6)
      ensures CanStart(s, routes4, routes6, auth) ==> PrioritiesFree(OthersOnly(s.policy))
    {
    }

    lemma FitToStart(s: KState, routes4: Routes.Listing, routes6: Routes.Listing, auth: Snapshot)
      requires Routes.WellFormed(routes4) && Routes.WellFormed(routes6)
      ensures CanStart(s, routes4, routes6, auth) ==> Fit(config, s, routes4, routes6)
    {
    }

    /** Tear down; what is left is what was found. */
    method GoDown() returns (down: bool)
      requires Valid()
      modifies backend`peers, backend.machine
      ensures backend.machine.AlwaysSafe() && Progress()
      ensures down ==> backend.machine.state == Vacated(old(backend.rest))
      ensures down ==> backend.machine.state == TornDown(old(backend.machine.state))
      ensures !down ==> backend.machine.faults > old(backend.machine.faults)
      ensures Gone()
    {
      hide TableOk, Agreement, TornDown, Complete, Accounted, Once;
      TornDownAsFound();
      down := backend.Down();
      NoLinkNoWg();
    }

    /** What a restart makes of any content the file ever had; of the last one saved, this very table. */
    method Reload(file: PeersFile) returns (t: Option<Table>)
      requires disk.Valid() && file in disk.held
      ensures t.Some? && TableOk(t.value)
      ensures file == disk.file && Saved() ==> t.value == peers
    {
      hide TableOk, FileOk, Lists;
      t := LoadTable(file);
      if file == disk.file && Saved() {
        ListedTableIsUnique(EntriesOf(file), t.value, peers);
      }
    }

    lemma TornDownAsFound()
      requires backend.Ready()
      ensures TornDown(backend.machine.state) == Vacated(backend.rest)
    {
      hide TornDown;
      BackendPeersOk();
      TeardownRestores(backend.config, backend.machine.state, backend.peers, backend.upper, backend.rest);
    }
  }

  /** What a new life can start from: a safe machine and a file that loads. */
  ghost predicate Bootable(s: KState, f: PeersFile) { Safe(s) && FileOk(f) }

  /**
   One life of a new process, over whatever machine and file are found: it serves the table
   the file lists. Wherever it ends, by itself or by a crash, the next life can start from
   what it leaves, and so on for any number of lives.
   */
  method Live(config: Config, found: KState, file: PeersFile, routes4: Routes.Listing, routes6: Routes.Listing,
              auth: Snapshot, events: seq<Event>)
    returns (m: Manager, up: bool, started: bool, served: nat, down: bool,
             ghost table: Table, ghost start: Layers, ghost turns: seq<Turn>)
    requires Bootable(found, file) && Routes.WellFormed(routes4) && Routes.WellFormed(routes6)
    ensures m.config == config && found in m.backend.machine.visited && file in m.disk.held
    ensures forall s, f :: s in m.backend.machine.visited && f in m.disk.held ==> Bootable(s, f)
    ensures m.backend.machine.state in m.backend.machine.visited && m.disk.file in m.disk.held
    ensures Lists(EntriesOf(file), table)
    ensures started ==> auth.Some? && start.table == Restrict(table, auth.value) && FileLists(start)
    ensures started ==> up && Answered(events, served, turns)
    ensures up ==> m.Recorded(start, turns) && Chained(config, OthersOnly(found.policy), start, turns)
    ensures up && m.backend.machine.missedOpenings == 0 && !m.backend.lost ==> AllClean(start, turns)
    ensures up && down ==> m.backend.machine.state == TornDown(found)
    ensures config.Valid() && found.link != Unowned && m.backend.machine.deleteFaults == 0 ==>
              m.backend.machine.state.link == Absent && m.backend.machine.state.wg == map[]
    ensures Fit(config, found, routes4, routes6) && m.backend.machine.faults == 0 ==> up && down && AllFlawless(start, turns)
    ensures m.CanStart(found, routes4, routes6, auth) && AllReadable(events) && m.Unfailing() ==>
              started && AllWell(events, served, turns)
  {
    hide TableOk, FileOk, Safe, AllReadable, AllWell, Chained, Answered, RecordedIn, Linux.Ready, Lists, FileLists;
    hide AllClean, AllFlawless, Restrict, OthersOnly, TornDown, Manager.CanStart, Manager.Known, Equal, Last, Fit;
    var machine := new Machine(found);
    var disk := new Disk(file);
    var loaded := LoadTable(file);
    table := loaded.value;
    var backend := new Linux(machine);
    m := new Manager(config, backend, disk, loaded.value);
    up, started, served, down, start, turns := m.Serve(routes4, routes6, auth, events);
  }

  lemma OwnKeys(t: Table, id: string)
    requires TableOk(t) && id in t
    ensures forall x :: x in t && x != id ==> t[x].publicKey != t[id].publicKey
  {
    forall x | x in t && x != id ensures t[x].publicKey != t[id].publicKey {
      assert Apart(t[x], t[id]);
    }
  }

  lemma NothingMore(held: map<string, Peer>)
    requires forall k :: k in held ==> false
    ensures held == map[]
  {
  }

  lemma NoneHeld(t: Table)
    ensures Agreement(map[], t)
  {
  }

  lemma RecordedId(t: Table, id: string)
    requires TableOk(t) && id in t
    ensures t[id].deviceId == id
  {
  }

  lemma RestoredTable(now: Table, t: Table, id: string)
    requires id in now && id in t && now - {id} == t - {id}
    ensures now[id := t[id]] == t
  {
    forall x | x in t && x != id ensures x in now && now[x] == t[x] {
      assert x in t - {id} && (now - {id})[x] == (t - {id})[x];
    }
    forall x | x in now && x != id ensures x in t {
      assert x in now - {id};
    }
  }

  lemma AgreementAfterSet(held: map<string, Peer>, now: map<string, Peer>, t: Table, p: Peer, ok: bool)
    requires Agreement(held, t) && Agreement(held[p.publicKey := p], t)
    requires ok ==> now == held[p.publicKey := p]
    requires !ok ==> now == held || now == held - {p.publicKey}
    ensures Agreement(now, t)
  {
  }

  lemma KeyIsValid(t: Table, id: string)
    requires TableOk(t) && id in t
    ensures ValidKey(t[id].publicKey)
  {
  }
}
