/**
 The core: pairing codes, exchanges, enrollments, device sign-in and revocation. Each method is
 one critical section, so any interleaving of requests is some sequence of these calls; a
 request that does password work between two sections stays in `work` meanwhile.
 */
module CoreServer {
  import opened Wrappers
  import opened Devices
  import opened Pake
  import opened Exchanges
  import opened Pacing
  import opened Enrollment

  const SLOTS: nat := 2
  const MAX_SESSIONS: nat := 64
  const MAX_CHALLENGES: nat := 64
  const SESSION_LIFETIME: int := 3600_000_000_000
  const CHALLENGE_LIFETIME: int := 30_000_000_000
  const SIGNATURE_SIZE: nat := 64
  const MAX_TARGET: nat := 255
  const MAX_USERNAME: nat := 64
  const MAX_PASSWORD: nat := 1024

  /** A session, of a device or (with an empty device id) of the account. */
  datatype Session = Session(expires: int, device: string)

  datatype Challenge = Challenge(device: string, expires: int)

  /** What a request that holds a password slot is about to do. */
  datatype Work =
    | SignIn(username: string, password: string)
    | Credentials(id: string, pending: Pending, proof: Bytes, username: string, password: string)

  datatype CodeError = TooSoon | CreatorRevoked | NoRandomness

  datatype StartResult = StartOk | InvalidRequest | Unavailable | Broken

  datatype EnrollResult = Added(device: string) | CheckFailed | WrongPassword | Expired | NotSaved

  datatype RevokeResult = Revoked | RevokedWithWarning | NotRevoked | NotAuthorized

  /** The critical sections of the requests. */
  datatype Step =
    | CreateCode(creator: string, draw: nat, generation: string)
    | Start(target: string, name: string, key: Bytes, id: string)
    | Finish(id: string, message: Bytes, proof: Bytes)
    | Begin(id: string, proof: Bytes, username: string, password: string)
    | Commit(ticket: nat, failed: bool)
    | PasswordBegin(username: string, password: string)
    | PasswordEnd(ticket: nat, failed: bool, token: string)
    | Ask(device: string, id: string)
    | Login(device: string, challenge: string, signature: Bytes, token: string)
    | Check(token: string)
    | SignOut(token: string)
    | Withdraw(id: string)
    | WithdrawBy(current: string, id: string)
    | Stop

  /** A step and the clock readings it takes. */
  datatype Timed = Timed(step: Step, first: int, second: int, third: int)

  /** Random identifiers do not repeat. */
  ghost predicate IsFresh(s: Step, past: Past) {
    && (s.CreateCode? ==> s.draw < CODE_SPACE && s.generation !in past.generations)
    && (s.Start? ==> s.id !in past.accounts)
  }

  ghost predicate Unlike(a: Step, b: Step) {
    && (a.CreateCode? && b.CreateCode? ==> a.generation != b.generation)
    && (a.Start? && b.Start? ==> a.id != b.id)
  }

  /** Clock readings never go back, and no random identifier comes up twice. */
  ghost predicate Scheduled(steps: seq<Timed>, past: Past, clock: int) {
    && (forall i :: 0 <= i < |steps| ==> IsFresh(steps[i].step, past))
    && (forall i, j :: 0 <= i < j < |steps| ==> Unlike(steps[i].step, steps[j].step))
    && (forall i :: 0 <= i < |steps| ==> clock <= steps[i].first <= steps[i].second <= steps[i].third != ZERO_TIME)
    && (forall i, j :: 0 <= i < j < |steps| ==> steps[i].third <= steps[j].first)
  }

  ghost predicate Extends<T>(a: seq<T>, b: seq<T>) { |a| <= |b| && forall i :: 0 <= i < |a| ==> b[i] == a[i] }

  /** Codes keep their times, and only gain exchange starts. */
  ghost predicate LotsExtend(a: seq<Lot>, b: seq<Lot>) {
    |a| <= |b| && forall i :: 0 <= i < |a| ==> b[i].created == a[i].created && Extends(a[i].starts, b[i].starts)
  }

  ghost predicate AccountsExtend(a: map<string, Account>, b: map<string, Account>) {
    forall id :: id in a ==> id in b && b[id].generation == a[id].generation && b[id].ordinal == a[id].ordinal && a[id].tries <= b[id].tries
  }

  /** The history only gets longer: nothing that was spent is forgotten. */
  ghost predicate Continues(before: Past, after: Past) {
    && before.generations <= after.generations
    && AccountsExtend(before.accounts, after.accounts)
    && Extends(before.evaluations, after.evaluations) && Extends(before.enrolled, after.enrolled)
    && LotsExtend(before.lots, after.lots)
  }

  lemma ContinuesTrans(a: Past, b: Past, c: Past)
    requires Continues(a, b) && Continues(b, c)
    ensures Continues(a, c)
  {
  }

  /** A step carries the history on and adds to it no identifier but its own. */
  ghost predicate GrowsBy(before: Past, after: Past, s: Step) {
    && Continues(before, after)
    && (forall g :: g in after.generations ==> g in before.generations || (s.CreateCode? && g == s.generation))
    && (forall id :: id in after.accounts ==> id in before.accounts || (s.Start? && id == s.id))
  }

  lemma CreatedGrows(past: Past, after: Past, s: Step, now: int)
    requires s.CreateCode? && CodeNoted(past, after, s.generation, now)
    ensures GrowsBy(past, after, s)
  {
  }

  lemma PaidGrows(past: Past, after: Past, code: Code, s: Step, now: int)
    requires s.Start? && s.id !in past.accounts && StartNoted(past, after, code, s.id, now)
    ensures GrowsBy(past, after, s)
  {
    var n := |past.lots| - 1;
    assert forall i :: 0 <= i < n ==> after.lots[i] == after.lots[..n][i] && past.lots[i] == past.lots[..n][i];
  }

  lemma TriedGrows(past: Past, after: Past, id: string, s: Step)
    requires TryNoted(past, after, id)
    ensures GrowsBy(past, after, s)
  {
  }

  lemma EnrolledGrows(past: Past, after: Past, w: Work, device: string, time: int, s: Step)
    requires w.Credentials? && EnrollNoted(past, after, w, device, time)
    ensures GrowsBy(past, after, s)
  {
  }

  lemma ContinuesRefl(past: Past)
    ensures Continues(past, past)
  {
  }

  lemma GrowsRefl(past: Past, s: Step)
    ensures GrowsBy(past, past, s)
  {
  }

  lemma AddedAdvances(before: Table, after: Table, id: string, p: Pending, now: int)
    requires AddedTo(before, after, id, p, now)
    ensures OnlyAdvances(before, after)
  {
    hide Trim;
  }

  lemma NextStep(steps: seq<Timed>, past: Past, clock: int)
    requires Scheduled(steps, past, clock) && steps != []
    ensures var t := steps[0]; IsFresh(t.step, past) && clock <= t.first <= t.second <= t.third && t.third != ZERO_TIME
  {
  }

  lemma StaysScheduled(steps: seq<Timed>, before: Past, after: Past, clock: int)
    requires steps != [] && exists earlier :: Scheduled(steps, before, earlier)
    requires GrowsBy(before, after, steps[0].step) && clock <= steps[0].third
    ensures Scheduled(steps[1..], after, clock)
  {
    forall i | 0 <= i < |steps[1..]| ensures IsFresh(steps[1..][i].step, after) {
      assert Unlike(steps[0].step, steps[i + 1].step) && IsFresh(steps[i + 1].step, before);
    }
  }

  lemma AdvancesRefl(t: Table)
    ensures OnlyAdvances(t, t)
  {
  }

  lemma AdvancesTrans(a: Table, b: Table, c: Table)
    requires OnlyAdvances(a, b) && OnlyAdvances(b, c)
    ensures OnlyAdvances(a, c)
  {
  }

  lemma StaysRevoked(before: Table, after: Table, id: string)
    requires OnlyAdvances(before, after) && id in before && before[id].revoked
    ensures id in after && after[id].revoked
  {
  }

  predicate ActiveIn(devices: Table, id: string) { id in devices && !devices[id].revoked }

  /** Whatever acts for a device acts for one that is not revoked. */
  ghost predicate Authority(sessions: map<string, Session>, challenges: map<string, Challenge>, code: Option<Code>, devices: Table) {
    && (forall t :: t in sessions && sessions[t].device != "" ==> ActiveIn(devices, sessions[t].device))
    && (forall t :: t in challenges ==> ActiveIn(devices, challenges[t].device))
    && (code.Some? && code.value.creator != "" ==> ActiveIn(devices, code.value.creator))
    && |sessions| <= MAX_SESSIONS && |challenges| <= MAX_CHALLENGES
  }

  /** The proof that a pending enrollment expects was derived from a shared secret. */
  ghost predicate Derived(c: Crypto, identify: Bytes -> string, p: Pending) {
    p.proofHash == c.hash(c.mac(p.secret, "enroll", p.context, identify(p.key)))
  }

  ghost predicate PendingOk(c: Crypto, identify: Bytes -> string, pending: map<string, Pending>) {
    && (forall id :: id in pending ==> Derived(c, identify, pending[id]))
    && (forall a, b :: a in pending && b in pending && a != b ==> pending[a] != pending[b])
  }

  /** What an exchange or an enrollment was begun with is fit for a device record. */
  predicate Admissible(key: Bytes, name: string) { |key| == KEY_SIZE && ValidName(name) }

  /** The code shown is one the library takes, and whoever pairs by it could be put on record. */
  ghost predicate MaterialOk(code: Option<Code>, open: map<string, Open>, pending: map<string, Pending>) {
    && (code.Some? ==> CodeOk(code.value.code))
    && (forall id :: id in open ==> Admissible(open[id].key, open[id].name))
    && (forall id :: id in pending ==> Admissible(pending[id].key, pending[id].name))
  }

  lemma FewerMaterial(code: Option<Code>, open: map<string, Open>, pending: map<string, Pending>,
                      open': map<string, Open>, pending': map<string, Pending>)
    requires MaterialOk(code, open, pending) && SubMap(open', open) && SubMap(pending', pending)
    ensures MaterialOk(code, open', pending') && MaterialOk(None, open', pending')
  {
    hide Admissible, CodeOk;
  }

  lemma NoMaterial()
    ensures MaterialOk(None, map[], map[])
  {
  }

  lemma SameShown(before: Code, after: Code, open: map<string, Open>, pending: map<string, Pending>)
    requires MaterialOk(Some(before), open, pending) && after.code == before.code
    ensures MaterialOk(Some(after), open, pending)
  {
    hide Admissible, CodeOk;
  }

  lemma NewMaterial(code: Code)
    requires CodeOk(code.code)
    ensures MaterialOk(Some(code), map[], map[])
  {
  }

  lemma OneOpen(code: Code, open: map<string, Open>, pending: map<string, Pending>, id: string, e: Open)
    requires MaterialOk(Some(code), open, pending) && Admissible(e.key, e.name)
    ensures MaterialOk(Some(code), open[id := e], pending)
  {
    hide Admissible, CodeOk;
  }

  lemma OneConfirmed(code: Option<Code>, open: map<string, Open>, pending: map<string, Pending>, id: string, p: Pending)
    requires MaterialOk(code, open, pending) && id in open && p.key == open[id].key && p.name == open[id].name
    ensures MaterialOk(code, open - {id}, pending[id := p])
  {
    hide Admissible, CodeOk;
  }

  lemma PendingIsAdmissible(code: Option<Code>, open: map<string, Open>, pending: map<string, Pending>, id: string)
    requires MaterialOk(code, open, pending) && id in pending
    ensures Admissible(pending[id].key, pending[id].name)
  {
    hide Admissible, CodeOk;
  }

  /** The slots in use are those of the requests doing password work, each with its proof checked. */
  ghost predicate WorkOk(c: Crypto, identify: Bytes -> string, work: map<nat, Work>, tickets: nat, slots: nat) {
    && slots == |work| <= SLOTS
    && (forall t :: t in work ==> t < tickets)
    && (forall t :: t in work ==> WorkItemOk(c, identify, work[t]))
  }

  ghost predicate WorkItemOk(c: Crypto, identify: Bytes -> string, w: Work) {
    w.Credentials? ==> Derived(c, identify, w.pending) && |w.proof| == KEY_SIZE && c.hash(w.proof) == w.pending.proofHash
  }

  /** Every record was there at the start or was added through a code. */
  ghost predicate Sourced(devices: Table, initial: set<string>, enrolled: seq<Enrolled>) {
    forall id :: id in devices && id !in initial ==> exists i :: 0 <= i < |enrolled| && enrolled[i].device == id
  }

  lemma AuthorityWithCode(sessions: map<string, Session>, challenges: map<string, Challenge>, code: Option<Code>, devices: Table,
                          next: Option<Code>)
    requires Authority(sessions, challenges, code, devices)
    requires next.Some? && next.value.creator != "" ==> ActiveIn(devices, next.value.creator)
    ensures Authority(sessions, challenges, next, devices)
  {
  }

  lemma FewerTokens(sessions: map<string, Session>, challenges: map<string, Challenge>, code: Option<Code>, devices: Table,
                    sessions': map<string, Session>, challenges': map<string, Challenge>)
    requires Authority(sessions, challenges, code, devices)
    requires SubMap(sessions', sessions) && SubMap(challenges', challenges)
    ensures Authority(sessions', challenges', code, devices)
  {
    hide ActiveIn;
    SubMapIsSmaller(sessions', sessions);
    SubMapIsSmaller(challenges', challenges);
  }

  lemma OneSession(sessions: map<string, Session>, challenges: map<string, Challenge>, code: Option<Code>, devices: Table,
                   token: string, s: Session)
    requires Authority(sessions, challenges, code, devices) && |sessions| < MAX_SESSIONS
    requires s.device != "" ==> ActiveIn(devices, s.device)
    ensures Authority(sessions[token := s], challenges, code, devices)
  {
    hide ActiveIn;
  }

  lemma OneChallenge(sessions: map<string, Session>, challenges: map<string, Challenge>, code: Option<Code>, devices: Table,
                     id: string, c: Challenge)
    requires Authority(sessions, challenges, code, devices) && |challenges| < MAX_CHALLENGES && ActiveIn(devices, c.device)
    ensures Authority(sessions, challenges[id := c], code, devices)
  {
    hide ActiveIn;
  }

  lemma SessionIsActive(sessions: map<string, Session>, challenges: map<string, Challenge>, code: Option<Code>, devices: Table,
                        token: string)
    requires Authority(sessions, challenges, code, devices) && token in sessions
    ensures sessions[token].device != "" ==> ActiveIn(devices, sessions[token].device)
  {
    hide ActiveIn;
  }

  lemma NothingPending(c: Crypto, identify: Bytes -> string)
    ensures PendingOk(c, identify, map[])
  {
  }

  ghost predicate ValidTarget(target: string) {
    && target != "" && ByteLength(target) <= MAX_TARGET
    && forall i :: 0 <= i < |target| ==> target[i] !in {'\r', '\n', '\0'}
  }

  function UnexpiredSessions(sessions: map<string, Session>, now: int): map<string, Session> {
    map t | t in sessions && now < sessions[t].expires :: sessions[t]
  }

  function WithSession(sessions: map<string, Session>, token: string, s: Option<Session>): map<string, Session> {
    if s.Some? then sessions[token := s.value] else sessions
  }

  function UnexpiredChallenges(challenges: map<string, Challenge>, now: int): map<string, Challenge> {
    map t | t in challenges && now < challenges[t].expires :: challenges[t]
  }

  function SessionsBut(sessions: map<string, Session>, device: string): map<string, Session> {
    map t | t in sessions && sessions[t].device != device :: sessions[t]
  }

  function ChallengesBut(challenges: map<string, Challenge>, device: string): map<string, Challenge> {
    map t | t in challenges && challenges[t].device != device :: challenges[t]
  }

  function CodeBut(code: Option<Code>, creator: string): Option<Code> {
    if code.Some? && code.value.creator == creator then None else code
  }

  /** Once a device's record is withdrawn, what is left acts for devices still active. */
  lemma AuthorityRevoked(sessions: map<string, Session>, challenges: map<string, Challenge>, code: Option<Code>,
                         before: Table, after: Table, id: string)
    requires Authority(sessions, challenges, code, before)
    requires id in before && after == before[id := before[id].(revoked := true)]
    ensures Authority(SessionsBut(sessions, id), ChallengesBut(challenges, id), CodeBut(code, id), after)
  {
    assert forall k :: k != id && ActiveIn(before, k) ==> ActiveIn(after, k);
    hide ActiveIn;
    SubMapIsSmaller(SessionsBut(sessions, id), sessions);
    SubMapIsSmaller(ChallengesBut(challenges, id), challenges);
  }

  lemma SourcedSame(before: Table, initial: set<string>, enrolled: seq<Enrolled>, after: Table)
    requires Sourced(before, initial, enrolled) && after.Keys == before.Keys
    ensures Sourced(after, initial, enrolled)
  {
  }

  /** 32 bytes in lower-case hexadecimal. */
  ghost predicate HexId(id: string) {
    |id| == 64 && forall i :: 0 <= i < |id| ==> '0' <= id[i] <= '9' || 'a' <= id[i] <= 'f'
  }

  /** A pending enrollment carries on the exchange, with a proof that only a holder of the secret can give. */
  ghost predicate FromExchange(c: Crypto, identify: Bytes -> string, e: Open, expires: int, p: Pending, secret: Bytes) {
    && p.key == e.key && p.name == e.name && p.generation == e.generation && p.context == e.context && p.expires == expires
    && p.secret == secret && Derived(c, identify, p)
  }

  ghost predicate AppProves(c: Crypto, identify: Bytes -> string, e: Open, secret: Bytes, proof: Bytes) {
    |proof| == KEY_SIZE && proof == c.mac(secret, "app", e.context, identify(e.key))
  }

  /** Both sides proved to know the secret: the app by `proof`, the core by its reply. */
  ghost predicate Confirmed(c: Crypto, identify: Bytes -> string, e: Open, p: Pending, proof: Bytes, reply: Bytes) {
    && FromExchange(c, identify, e, p.expires, p, p.secret)
    && AppProves(c, identify, e, p.secret, proof)
    && reply == c.mac(p.secret, "core", e.context, identify(e.key))
  }

  lemma OnePending(c: Crypto, identify: Bytes -> string, pending: map<string, Pending>, id: string, p: Pending)
    requires PendingOk(c, identify, pending) && Derived(c, identify, p)
    requires forall k :: k in pending ==> pending[k] != p
    ensures PendingOk(c, identify, pending[id := p])
  {
    hide Derived;
  }

  lemma PendingIsDerived(c: Crypto, identify: Bytes -> string, pending: map<string, Pending>, id: string)
    requires PendingOk(c, identify, pending) && id in pending
    ensures Derived(c, identify, pending[id]) && forall k :: k in pending && k != id ==> pending[k] != pending[id]
  {
    hide Derived;
  }

  lemma WorkIsOk(c: Crypto, identify: Bytes -> string, work: map<nat, Work>, tickets: nat, slots: nat, t: nat)
    requires WorkOk(c, identify, work, tickets, slots) && t in work
    ensures WorkItemOk(c, identify, work[t])
  {
    hide WorkItemOk;
  }

  /** Everything that was checked for a device about to be added. */
  ghost function Evidence(w: Work, device: string, time: int): Enrolled
    requires w.Credentials?
  {
    var p := w.pending;
    Enrolled(p.generation, device, time, p.expires, p.secret, p.context, w.proof, w.username, w.password)
  }

  function WithEnrolled(past: Past, e: Enrolled): Past { past.(enrolled := past.enrolled + [e]) }

  lemma EvidenceIsGenuine(c: Crypto, identify: Bytes -> string, code: Option<Code>, lastCode: Option<int>, open: map<string, Open>,
                          pending: map<string, Pending>, past: Past, clock: int, w: Work, time: int)
    requires Ledger(c, code, lastCode, open, pending, past, clock)
    requires w.Credentials? && WorkItemOk(c, identify, w) && c.matches(w.username, w.password)
    requires w.id in pending && pending[w.id] == w.pending
    requires code.Some? && time < code.value.expires
    ensures Genuine(c, Evidence(w, identify(w.pending.key), time))
  {
    hide AccountsOk, Booked, Evaluated, Spent, Clocked;
  }

  /** The record of an enrolled device, beside unchanged others. */
  ghost predicate AddedTo(before: Table, after: Table, id: string, p: Pending, now: int) {
    id !in before && after == before[id := Device(id, Trim(p.name), p.key, now, false)]
  }

  lemma AddedIsActive(before: Table, after: Table, device: string, p: Pending, now: int)
    requires AddedTo(before, after, device, p, now)
    ensures after.Keys == before.Keys + {device} && forall id :: ActiveIn(before, id) ==> ActiveIn(after, id)
  {
    hide Trim;
  }

  lemma AuthorityGrows(sessions: map<string, Session>, challenges: map<string, Challenge>, code: Option<Code>, before: Table, after: Table)
    requires Authority(sessions, challenges, code, before)
    requires forall id :: ActiveIn(before, id) ==> ActiveIn(after, id)
    ensures Authority(sessions, challenges, None, after)
  {
    hide ActiveIn;
  }

  lemma SourcedOneMore(before: Table, initial: set<string>, enrolled: seq<Enrolled>, device: string, after: Table, e: Enrolled)
    requires Sourced(before, initial, enrolled) && after.Keys == before.Keys + {device} && e.device == device
    ensures Sourced(after, initial, enrolled + [e])
  {
    var more := enrolled + [e];
    forall id | id in after && id !in initial ensures exists i :: 0 <= i < |more| && more[i].device == id {
      if id == device {
        assert more[|enrolled|].device == id;
      } else {
        var i :| 0 <= i < |enrolled| && enrolled[i].device == id;
        assert more[i].device == id;
      }
    }
  }

  /** Ten seconds have passed since the last code. */
  ghost predicate MayCreate(lastCode: Option<int>, now: int) { lastCode.None? || now - lastCode.value >= CODE_GAP }

  ghost predicate StartRequestOk(target: string, name: string, key: Bytes) {
    Admissible(key, name) && ValidTarget(target)
  }

  ghost predicate CanStart(code: Option<Code>, now: int) {
    code.Some? && now < code.value.expires && code.value.attempts < MAX_STARTS
  }

  /** The code after one more exchange start. */
  ghost function Started(code: Code): Code { code.(attempts := code.attempts + 1) }

  /** A fresh exchange lasts half a minute, and never longer than its code. */
  ghost predicate Opened(entry: Open, context: Bytes, name: string, key: Bytes, code: Code, now: int) {
    && entry == Open(entry.pake, context, key, name, code.generation, entry.expires)
    && (entry.expires == now + EXCHANGE_LIFETIME || entry.expires == code.expires)
    && entry.expires <= now + EXCHANGE_LIFETIME && entry.expires <= code.expires
  }

  /** The history with one more code, which has paid for nothing yet. */
  ghost predicate CodeNoted(before: Past, after: Past, generation: string, now: int) {
    && after.generations == before.generations + {generation} && after.lots == before.lots + [Lot(now, [])]
    && after.accounts == before.accounts && after.evaluations == before.evaluations && after.enrolled == before.enrolled
  }

  /** The history with one more exchange start, on the account of this code. */
  ghost predicate StartNoted(before: Past, after: Past, code: Code, id: string, now: int) {
    && before.lots != [] && |after.lots| == |before.lots| && after.lots[..|after.lots| - 1] == before.lots[..|before.lots| - 1]
    && after.lots[|after.lots| - 1].created == before.lots[|before.lots| - 1].created
    && after.lots[|after.lots| - 1].starts == before.lots[|before.lots| - 1].starts + [now]
    && after.accounts == before.accounts[id := Account(code.generation, code.attempts + 1, 0)]
    && after.generations == before.generations && after.evaluations == before.evaluations && after.enrolled == before.enrolled
  }

  /** The history with one more password evaluated for an exchange. */
  ghost predicate TryNoted(before: Past, after: Past, id: string) {
    && id in before.accounts
    && after.evaluations == before.evaluations + [Evaluation(id, before.accounts[id].tries + 1)]
    && after.accounts == before.accounts[id := Account(before.accounts[id].generation, before.accounts[id].ordinal, before.accounts[id].tries + 1)]
    && after.generations == before.generations && after.lots == before.lots && after.enrolled == before.enrolled
  }

  /** The history with one more device, and what was checked for it. */
  ghost predicate EnrollNoted(before: Past, after: Past, w: Work, device: string, time: int)
    requires w.Credentials?
  {
    && after.enrolled == before.enrolled + [Enrolled(w.pending.generation, device, time, w.pending.expires, w.pending.secret,
                                                     w.pending.context, w.proof, w.username, w.password)]
    && after.generations == before.generations && after.lots == before.lots
    && after.accounts == before.accounts && after.evaluations == before.evaluations
  }

  function UnexpiredPending(pending: map<string, Pending>, now: int): map<string, Pending> {
    map id | id in pending && now < pending[id].expires :: pending[id]
  }

  lemma FewerPending(c: Crypto, identify: Bytes -> string, pending: map<string, Pending>, fewer: map<string, Pending>)
    requires PendingOk(c, identify, pending) && SubMap(fewer, pending)
    ensures PendingOk(c, identify, fewer)
  {
    hide Derived;
  }

  /** What a device must present: its own fresh challenge, signed with the key on record. */
  ghost predicate MayLogin(c: Crypto, challenges: map<string, Challenge>, devices: Table,
                           device: string, challenge: string, signature: Bytes, now: int) {
    && challenge in challenges && challenges[challenge].device == device && now < challenges[challenge].expires
    && ActiveIn(devices, device) && |signature| == SIGNATURE_SIZE
    && c.verifies(devices[device].key, device, challenge, signature)
  }

  // ---- what a step does ----

  /** The core at an unlock. The tries of an enrollment are in the history; the last three count what has failed. */
  datatype Moment = Moment(
    code: Option<Code>, lastCode: Option<int>, open: map<string, Open>, pending: map<string, Pending>,
    sessions: map<string, Session>, challenges: map<string, Challenge>, work: map<nat, Work>,
    devices: Table, past: Past, mishaps: nat, saves: nat, library: nat)

  /** From one unlock to the next: what the step changes, and when it may fail to. */
  ghost predicate Taken(c: Crypto, identify: Bytes -> string, t: Timed, b: Moment, a: Moment) {
    match t.step
    case CreateCode(creator, draw, generation) => TakenCode(creator, draw, generation, t.first, b, a)
    case Start(target, name, key, id) => TakenStart(target, name, key, id, t.first, b, a)
    case Finish(id, message, proof) => TakenFinish(id, b, a)
    case Begin(id, proof, username, password) => TakenBegin(c, id, proof, username, password, t.first, t.second, b, a)
    case Commit(ticket, failed) => TakenCommit(c, identify, ticket, failed, t, b, a)
    case PasswordBegin(username, password) =>
      && a == b.(work := a.work)
      && (if ByteLength(username) <= MAX_USERNAME && ByteLength(password) <= MAX_PASSWORD && |b.work| < SLOTS
          then Extended(b.work, a.work, SignIn(username, password)) else a.work == b.work)
    case PasswordEnd(ticket, failed, token) => TakenSignIn(c, ticket, failed, token, t.first, t.second, b, a)
    case Ask(device, id) =>
      && a == b.(challenges := a.challenges)
      && a.challenges == WithChallenge(b.challenges, b.devices, device, id, t.first)
    case Login(device, challenge, signature, token) =>
      && a == b.(challenges := b.challenges - {challenge}, sessions := a.sessions)
      && a.sessions == if MayLogin(c, b.challenges, b.devices, device, challenge, signature, t.first)
                       then WithRoom(b.sessions, token, Session(t.second + SESSION_LIFETIME, device), t.second) else b.sessions
    case Check(token) =>
      a == if token in b.sessions && t.first < b.sessions[token].expires then b else b.(sessions := b.sessions - {token})
    case SignOut(token) => a == b.(sessions := b.sessions - {token})
    case Withdraw(id) => TakenWithdrawal(id, b, a)
    case WithdrawBy(current, id) => if ActiveIn(b.devices, current) then TakenWithdrawal(id, b, a) else a == b
    case Stop => a == b.(open := map[], pending := map[], library := a.library)
  }

  ghost predicate TakenCode(creator: string, draw: nat, generation: string, now: int, b: Moment, a: Moment) {
    if MayCreate(b.lastCode, now) && (creator != "" ==> ActiveIn(b.devices, creator)) && a.mishaps == b.mishaps then
      && a == b.(code := Some(Code(FormatCode(draw), now + LIFETIME, 0, generation, creator)), lastCode := Some(now),
                 open := map[], pending := map[], past := a.past, library := a.library)
      && CodeNoted(b.past, a.past, generation, now)
    else
      a == b.(mishaps := a.mishaps, library := a.library)
  }

  ghost predicate TakenStart(target: string, name: string, key: Bytes, id: string, now: int, b: Moment, a: Moment) {
    if !StartRequestOk(target, name, key) then a == b
    else
      var open, pending := Unexpired(b.open, now), UnexpiredPending(b.pending, now);
      if !CanStart(b.code, now) then a == b.(open := open, pending := pending)
      else
        && a == b.(code := Some(Started(b.code.value)), open := a.open, pending := pending, past := a.past, library := a.library)
        && StartNoted(b.past, a.past, b.code.value, id, now)
        && (if a.library == b.library then id in a.open && a.open == open[id := a.open[id]] else a.open == open)
  }

  /** The exchange goes; with the right proof its id names an enrollment instead. */
  ghost predicate TakenFinish(id: string, b: Moment, a: Moment) {
    && a == b.(open := b.open - {id}, pending := a.pending)
    && (a.pending == b.pending || (id in b.open && id in a.pending && a.pending == b.pending[id := a.pending[id]]))
  }

  ghost predicate TakenBegin(c: Crypto, id: string, proof: Bytes, username: string, password: string, first: int, second: int,
                             b: Moment, a: Moment) {
    if && ByteLength(username) <= MAX_USERNAME && ByteLength(password) <= MAX_PASSWORD && |proof| == KEY_SIZE
       && id in b.pending && c.hash(proof) == b.pending[id].proofHash && Current(b.code, b.pending[id], first, second)
       && id in b.past.accounts && b.past.accounts[id].tries < MAX_TRIES && |b.work| < SLOTS
    then
      && a == b.(work := a.work, past := a.past)
      && Extended(b.work, a.work, Credentials(id, b.pending[id], proof, username, password)) && TryNoted(b.past, a.past, id)
    else a == b
  }

  ghost predicate TakenCommit(c: Crypto, identify: Bytes -> string, ticket: nat, failed: bool, t: Timed, b: Moment, a: Moment) {
    if ticket in b.work && b.work[ticket].Credentials? then
      var w := b.work[ticket];
      var device := identify(w.pending.key);
      if && !failed && c.matches(w.username, w.password) && w.id in b.pending && b.pending[w.id] == w.pending
         && Current(b.code, w.pending, t.first, t.second) && device !in b.devices && |b.devices| < MAX_DEVICES && a.saves == b.saves
      then
        && a == b.(code := None, open := map[], pending := map[], work := b.work - {ticket}, devices := a.devices, past := a.past,
                   library := a.library)
        && AddedTo(b.devices, a.devices, device, w.pending, t.third) && EnrollNoted(b.past, a.past, w, device, t.second)
      else a == b.(work := b.work - {ticket}, saves := a.saves, library := a.library)
    else a == b
  }

  ghost predicate TakenSignIn(c: Crypto, ticket: nat, failed: bool, token: string, first: int, second: int, b: Moment, a: Moment) {
    if ticket in b.work && b.work[ticket].SignIn? then
      && a == b.(work := b.work - {ticket}, sessions := a.sessions)
      && a.sessions == if !failed && c.matches(b.work[ticket].username, b.work[ticket].password)
                       then WithRoom(b.sessions, token, Session(first + SESSION_LIFETIME, ""), second) else b.sessions
    else a == b
  }

  /** The device's record is revoked and nothing acts for it any more, unless it is unknown or the save failed. */
  ghost predicate TakenWithdrawal(id: string, b: Moment, a: Moment) {
    if id in b.devices && a.saves == b.saves then
      && a == b.(devices := b.devices[id := b.devices[id].(revoked := true)], sessions := SessionsBut(b.sessions, id),
                 challenges := ChallengesBut(b.challenges, id), code := CodeBut(b.code, id), open := a.open, pending := a.pending,
                 mishaps := a.mishaps, library := a.library)
      && (if a.code == b.code then a.open == b.open && a.pending == b.pending else a.open == map[] && a.pending == map[])
    else a == b.(saves := a.saves, library := a.library)
  }

  ghost predicate Current(code: Option<Code>, p: Pending, first: int, second: int) {
    code.Some? && p.generation == code.value.generation && first < p.expires && second < code.value.expires
  }

  /** One more request does password work, under a new ticket. */
  ghost predicate Extended(before: map<nat, Work>, after: map<nat, Work>, w: Work) {
    exists t: nat :: t !in before && after == before[t := w]
  }

  /** The sessions that last, and the new one if there is room for it. */
  ghost function WithRoom(sessions: map<string, Session>, token: string, s: Session, now: int): map<string, Session> {
    var left := UnexpiredSessions(sessions, now);
    if |left| < MAX_SESSIONS then left[token := s] else left
  }

  /** A challenge for an active device, among those that last, if there is room for it. */
  ghost function WithChallenge(challenges: map<string, Challenge>, devices: Table, device: string, id: string, now: int)
    : map<string, Challenge>
  {
    var left := UnexpiredChallenges(challenges, now);
    if !HexId(device) || !ActiveIn(devices, device) then challenges
    else if |left| < MAX_CHALLENGES then left[id := Challenge(device, now + CHALLENGE_LIFETIME)]
    else left
  }

  /** A commit on a ticket that nobody holds does nothing. */
  lemma NothingTaken(c: Crypto, identify: Bytes -> string, t: Timed, b: Moment)
    requires t.step.Commit? && (t.step.ticket in b.work ==> !b.work[t.step.ticket].Credentials?)
    ensures Taken(c, identify, t, b, b)
  {
  }

  lemma LoginTaken(c: Crypto, identify: Bytes -> string, t: Timed, b: Moment, a: Moment, r: Option<Session>)
    requires t.step.Login? && a == b.(challenges := b.challenges - {t.step.challenge}, sessions := a.sessions)
    requires var s := t.step;
      var admitted := MayLogin(c, b.challenges, b.devices, s.device, s.challenge, s.signature, t.first);
      && (r.Some? <==> admitted && |UnexpiredSessions(b.sessions, t.second)| < MAX_SESSIONS)
      && (r.Some? ==> r.value == Session(t.second + SESSION_LIFETIME, s.device))
      && a.sessions == if admitted then WithSession(UnexpiredSessions(b.sessions, t.second), s.token, r) else b.sessions
    ensures Taken(c, identify, t, b, a)
  {
    hide MayLogin;
  }

  lemma CommitTaken(c: Crypto, identify: Bytes -> string, t: Timed, b: Moment, a: Moment, added: bool)
    requires t.step.Commit? && t.step.ticket in b.work && b.work[t.step.ticket].Credentials?
    requires a.work == b.work - {t.step.ticket} && a == b.(code := a.code, open := a.open, pending := a.pending, work := a.work,
               devices := a.devices, past := a.past, saves := a.saves, library := a.library)
    requires var w := b.work[t.step.ticket];
      added <==> && !t.step.failed && c.matches(w.username, w.password) && w.id in b.pending && b.pending[w.id] == w.pending
                 && Current(b.code, w.pending, t.first, t.second) && identify(w.pending.key) !in b.devices
                 && |b.devices| < MAX_DEVICES && a.saves <= b.saves
    requires added ==> a.code.None? && a.open == map[] && a.pending == map[] && a.saves == b.saves
    requires added ==> AddedTo(b.devices, a.devices, identify(b.work[t.step.ticket].pending.key), b.work[t.step.ticket].pending, t.third)
    requires added ==> EnrollNoted(b.past, a.past, b.work[t.step.ticket], identify(b.work[t.step.ticket].pending.key), t.second)
    requires !added ==> a.code == b.code && a.open == b.open && a.pending == b.pending && a.devices == b.devices && a.past == b.past
    ensures Taken(c, identify, t, b, a)
  {
    hide AddedTo, EnrollNoted, Current;
  }

  /** Every step was taken, one after the other, from the first moment to the last. */
  ghost predicate TakenAll(c: Crypto, identify: Bytes -> string, steps: seq<Timed>, trace: seq<Moment>) {
    |trace| == |steps| + 1 && forall i :: 0 <= i < |steps| ==> Taken(c, identify, steps[i], trace[i], trace[i + 1])
  }

  lemma OneMoreTaken(c: Crypto, identify: Bytes -> string, steps: seq<Timed>, trace: seq<Moment>, t: Timed, next: Moment)
    requires TakenAll(c, identify, steps, trace) && Taken(c, identify, t, trace[|steps|], next)
    ensures TakenAll(c, identify, steps + [t], trace + [next])
  {
    hide Taken;
  }

  class Server {
    const crypto: Crypto
    const devices: DeviceStore
    const exchanges: OpenExchanges      // the pairings
    var code: Option<Code>
    var lastCode: Option<int>
    var enrollments: map<string, Pending>
    var sessions: map<string, Session>  // by token
    var challenges: map<string, Challenge>
    var slots: nat                      // password slots in use
    var work: map<nat, Work>            // the requests between their two sections, by ticket
    var tickets: nat

    const vpn: bool                     // whether there is a VPN helper to tell of a revocation

    ghost const initial: set<string>    // the devices at the start
    ghost var past: Past
    ghost var clock: int                // the latest clock reading
    ghost var mishaps: nat              // failures of the random source, and removals the VPN helper did not confirm

    /** The number of tries of a pending enrollment is what its account says. */
    ghost predicate TriesAgree()
      reads this`past, this`enrollments, enrollments.Values
    {
      forall id :: id in enrollments ==> id in past.accounts && enrollments[id].attempts == past.accounts[id].tries
    }

    ghost function Now(): Moment
      reads this, devices, exchanges, exchanges.native
    {
      Moment(code, lastCode, exchanges.entries, enrollments, sessions, challenges, work, devices.devices, past,
             mishaps, devices.failures, exchanges.native.failures)
    }

    /** The state that pairing steps leave alone. */
    ghost function Aside(): (Option<int>, map<string, Session>, map<string, Challenge>, nat, map<nat, Work>, nat, nat)
      reads this
    {
      (lastCode, sessions, challenges, slots, work, tickets, mishaps)
    }

    /** The state that new codes leave alone. */
    ghost function Tokens(): (map<string, Session>, map<string, Challenge>, nat, map<nat, Work>, nat)
      reads this
    {
      (sessions, challenges, slots, work, tickets)
    }

    ghost predicate LedgerOk()
      reads this, exchanges
    {
      Ledger(crypto, code, lastCode, exchanges.entries, enrollments, past, clock)
    }

    ghost predicate MaterialHolds()
      reads this, exchanges
    {
      MaterialOk(code, exchanges.entries, enrollments)
    }

    ghost predicate StoresOk()
      reads this, devices, exchanges, exchanges.native, exchanges.owned
    {
      devices.Valid() && exchanges.Valid()
    }

    ghost predicate TokensOk()
      reads this`work, this`tickets, this`slots, this`sessions, this`challenges, this`code, devices
    {
      && WorkOk(crypto, devices.identify, work, tickets, slots)
      && Authority(sessions, challenges, code, devices.devices)
    }

    ghost predicate SourcedOk()
      reads this`past, devices
    {
      Sourced(devices.devices, initial, past.enrolled)
    }

    ghost predicate Valid()
      reads this, devices, exchanges, exchanges.native, exchanges.owned, enrollments.Values
    {
      && StoresOk() && TokensOk() && SourcedOk() && LedgerOk() && TriesAgree() && MaterialHolds()
      && PendingOk(crypto, devices.identify, enrollments)
    }

    constructor (crypto: Crypto, store: DeviceStore, vpn: bool)
      requires store.Valid()
      ensures Valid() && devices == store && this.crypto == crypto && this.vpn == vpn && fresh(exchanges) && fresh(exchanges.native)
      ensures code.None? && enrollments == map[] && sessions == map[] && challenges == map[] && work == map[]
      ensures past == Past({}, map[], [], [], []) && initial == store.devices.Keys
    {
      hide DeviceStore.Valid, OpenExchanges.Valid, Ledger;
      EmptyLedger(crypto);
      this.crypto, devices, initial, this.vpn := crypto, store, store.devices.Keys, vpn;
      exchanges := new OpenExchanges();
      code, lastCode, enrollments, sessions, challenges := None, None, map[], map[], map[];
      slots, work, tickets := 0, map[], 0;
      past, clock, mishaps := Past({}, map[], [], [], []), 0, 0;
    }

    // ---- codes ----

    /** Forget every exchange and enrollment. */
    method ClearPairingsLocked()
      requires exchanges.Valid()
      modifies this`enrollments, exchanges, exchanges.native, exchanges.owned
      ensures exchanges.owned == old(exchanges.owned)
      ensures exchanges.Valid() && exchanges.entries == map[] && enrollments == map[] && exchanges.native.states == {}
    {
      exchanges.Clear();
      enrollments := map[];
    }

    /** The new code replaces the old one, with every exchange and enrollment of it. */
    method InstallCode(next: Code, now: int)
      requires Valid() && clock == now && MayCreate(lastCode, now)
      requires next.generation !in past.generations && next.attempts == 0 && next.expires == now + LIFETIME && CodeOk(next.code)
      requires next.creator != "" ==> ActiveIn(devices.devices, next.creator)
      modifies this, exchanges, exchanges.native, exchanges.owned
      ensures exchanges.owned == old(exchanges.owned)
      ensures Valid() && clock == now
      ensures code == Some(next) && lastCode == Some(now) && exchanges.entries == map[] && enrollments == map[]
      ensures CodeNoted(old(past), past, next.generation, now) && Tokens() == old(Tokens()) && mishaps == old(mishaps)
    {
      hide Ledger, DeviceStore.Valid, OpenExchanges.Valid, WorkOk, Sourced, PendingOk, Authority, MaterialOk, CodeOk;
      NewMaterial(next);
      AuthorityWithCode(sessions, challenges, code, devices.devices, Some(next));
      NothingPending(crypto, devices.identify);
      Enrollment.NewCode(crypto, code, lastCode, exchanges.entries, enrollments, past, now, next);
      ClearPairingsLocked();
      code, lastCode, past := Some(next), Some(now), Created(past, next.generation, now);
    }

    /** A new code for the administrator, or for a device whose id an earlier section established. */
    method NewPairingCode(creator: string, draw: nat, generation: string, now: int) returns (r: Result<Code, CodeError>)
      requires Valid() && clock <= now && draw < CODE_SPACE && generation !in past.generations
      modifies this, exchanges, exchanges.native, exchanges.owned
      ensures exchanges.owned == old(exchanges.owned)
      ensures Valid() && clock == now && Tokens() == old(Tokens())
      ensures r == Err(TooSoon) <==> !MayCreate(old(lastCode), now)
      ensures r == Err(CreatorRevoked) <==> MayCreate(old(lastCode), now) && creator != "" && !ActiveIn(devices.devices, creator)
      ensures r.Ok? <==> MayCreate(old(lastCode), now) && (creator != "" ==> ActiveIn(devices.devices, creator)) && mishaps == old(mishaps)
      ensures r.Ok? ==> r.value == Code(FormatCode(draw), now + LIFETIME, 0, generation, creator)
      ensures r.Ok? ==> code == Some(r.value) && lastCode == Some(now) && CodeNoted(old(past), past, generation, now)
      ensures mishaps == old(mishaps) + if r == Err(NoRandomness) then 1 else 0
      ensures r.Ok? ==> exchanges.entries == map[] && enrollments == map[]
      ensures r.Err? ==> code == old(code) && lastCode == old(lastCode) && past == old(past)
      ensures r.Err? ==> exchanges.entries == old(exchanges.entries) && enrollments == old(enrollments)
    {
      hide Ledger, DeviceStore.Valid, OpenExchanges.Valid, WorkOk, Sourced, PendingOk, Authority, FormatCode, MaterialOk, CodeOk;
      LedgerLater(crypto, code, lastCode, exchanges.entries, enrollments, past, clock, now);
      clock := now;
      if lastCode.Some? && now - lastCode.value < CODE_GAP { return Err(TooSoon); }
      if creator != "" && devices.Active(creator).None? { return Err(CreatorRevoked); }
      var random: bool := *;
      if !random {
        mishaps := mishaps + 1;
        return Err(NoRandomness);
      }
      var next := Code(FormatCode(draw), now + LIFETIME, 0, generation, creator);
      InstallCode(next, now);
      return Ok(next);
    }

    /** Forget the enrollments whose time is over. */
    method PurgeEnrollments(now: int)
      modifies this`enrollments
      ensures enrollments == UnexpiredPending(old(enrollments), now)
    {
      var todo := enrollments.Keys;
      while todo != {}
        invariant todo <= enrollments.Keys && SubMap(enrollments, old(enrollments))
        invariant forall id :: id in old(enrollments) && now < old(enrollments)[id].expires ==> id in enrollments
        invariant forall id :: id in enrollments && id !in todo ==> now < enrollments[id].expires
      {
        var id :| id in todo;
        if now >= enrollments[id].expires { enrollments := enrollments - {id}; }
        todo := todo - {id};
      }
    }

    predicate CreatorActive()
      requires code.Some?
      reads this, devices
    {
      code.value.creator == "" || devices.Active(code.value.creator).Some?
    }

    lemma CreatorIsActive()
      requires Valid() && code.Some?
      ensures CreatorActive()
    {
      hide Ledger, DeviceStore.Valid, OpenExchanges.Valid, WorkOk, Sourced, PendingOk, MaterialOk;
    }

    /** Forget what is over, of the exchanges and of the enrollments. */
    method Purge(now: int)
      requires Valid() && clock <= now
      modifies this, exchanges, exchanges.native, exchanges.owned
      ensures Valid() && clock == now && exchanges.owned == old(exchanges.owned)
      ensures exchanges.entries == Unexpired(old(exchanges.entries), now)
      ensures enrollments == UnexpiredPending(old(enrollments), now)
      ensures code == old(code) && past == old(past) && Aside() == old(Aside())
      ensures exchanges.native.failures == old(exchanges.native.failures)
    {
      hide Ledger, DeviceStore.Valid, OpenExchanges.Valid, WorkOk, Sourced, PendingOk, Authority, MaterialOk;
      LedgerLater(crypto, code, lastCode, exchanges.entries, enrollments, past, clock, now);
      clock := now;
      exchanges.PurgeExpired(now);
      PurgeEnrollments(now);
      Forget(crypto, code, lastCode, old(exchanges.entries), old(enrollments), past, now, exchanges.entries, enrollments);
      FewerPending(crypto, devices.identify, old(enrollments), enrollments);
      FewerMaterial(code, old(exchanges.entries), old(enrollments), exchanges.entries, enrollments);
    }

    /** Pay for an exchange and try to open it; the payment stands either way. */
    method OpenExchange(target: string, name: string, key: Bytes, id: string, now: int) returns (ok: bool)
      requires Valid() && clock == now && id !in past.accounts && CanStart(code, now) && Admissible(key, name)
      modifies this, exchanges, exchanges.native, exchanges.owned
      ensures fresh(exchanges.owned - old(exchanges.owned))
      ensures Valid() && clock == now
      ensures code == Some(Started(old(code.value))) && StartNoted(old(past), past, old(code.value), id, now)
      ensures !ok ==> exchanges.entries == old(exchanges.entries) && exchanges.native.failures > old(exchanges.native.failures)
      ensures ok ==> id in exchanges.entries && exchanges.entries == old(exchanges.entries)[id := exchanges.entries[id]]
      ensures ok ==> exchanges.native.failures == old(exchanges.native.failures)
      ensures ok ==> Opened(exchanges.entries[id], crypto.bind(id, target, name, key), name, key, old(code.value), now)
      ensures enrollments == old(enrollments) && Aside() == old(Aside())
    {
      hide Ledger, DeviceStore.Valid, OpenExchanges.Valid, WorkOk, Sourced, PendingOk, Authority, MaterialOk, CodeOk, Admissible;
      hide StartNoted;
      CodeIsShown();
      PayForStart(id, now);
      ghost var open := exchanges.entries;
      var expires := now + EXCHANGE_LIFETIME;
      if code.value.expires < expires { expires := code.value.expires; }
      ok := exchanges.Start(id, code.value.code, crypto.bind(id, target, name, key), key, name, code.value.generation, expires);
      if ok {
        OneOpen(code.value, open, enrollments, id, exchanges.entries[id]);
        OpenPaid(crypto, code.value, lastCode, open, enrollments, past, now, id, exchanges.entries[id]);
      }
    }

    /** One of the code's starts is used up, and booked to the exchange about to be opened. */
    method PayForStart(id: string, now: int)
      requires Valid() && clock == now && id !in past.accounts && CanStart(code, now)
      modifies this`code, this`past
      ensures Valid()
      ensures code == Some(Started(old(code.value))) && StartNoted(old(past), past, old(code.value), id, now)
      ensures |exchanges.entries| + |enrollments| < code.value.attempts && id !in exchanges.entries && id !in enrollments
      ensures id in past.accounts && past.accounts[id].generation == code.value.generation && past.accounts[id].tries == 0
    {
      hide Ledger, DeviceStore.Valid, OpenExchanges.Valid, WorkOk, Sourced, PendingOk, Authority, MaterialOk;
      ghost var before := code.value;
      PayStart(crypto, before, lastCode, exchanges.entries, enrollments, past, now, id);
      CreatorIsActive();
      AuthorityWithCode(sessions, challenges, code, devices.devices, Some(Started(before)));
      StartIsBooked(now, id);
      SameShown(before, Started(before), exchanges.entries, enrollments);
      past := Paid(past, before, id, now);
      code := Some(code.value.(attempts := code.value.attempts + 1));
    }

    /** The code is one the library takes, and there is room for its handles. */
    lemma CodeIsShown()
      requires Valid() && code.Some?
      ensures CodeOk(code.value.code) && |exchanges.entries| < HANDLE_LIMIT
    {
      hide CodeOk;
      LiveHandles();
    }

    lemma StartIsBooked(now: int, id: string)
      requires LedgerOk() && code.Some?
      ensures StartNoted(past, Paid(past, code.value, id, now), code.value, id, now)
    {
      hide Paced, Genuine;
    }

    /**
     Admit an exchange. The creator's authority is never what is missing: a code whose creator
     was revoked is gone.
     */
    method PairingStart(target: string, name: string, key: Bytes, id: string, now: int) returns (r: StartResult)
      requires Valid() && clock <= now && id !in past.accounts
      modifies this, exchanges, exchanges.native, exchanges.owned
      ensures fresh(exchanges.owned - old(exchanges.owned)) && SubMap(enrollments, old(enrollments))
      ensures Valid() && clock <= now && Aside() == old(Aside())
      ensures r == InvalidRequest <==> !StartRequestOk(target, name, key)
      ensures r == Broken ==> exchanges.native.failures > old(exchanges.native.failures)
      ensures r != Broken ==> exchanges.native.failures == old(exchanges.native.failures)
      ensures r == Unavailable <==> StartRequestOk(target, name, key) && !CanStart(old(code), now)
      ensures r in {InvalidRequest, Unavailable} ==> code == old(code) && past == old(past)
      ensures CanStart(old(code), now) && r != InvalidRequest ==> code == Some(Started(old(code.value)))
      ensures CanStart(old(code), now) && r != InvalidRequest ==> StartNoted(old(past), past, old(code.value), id, now)
      ensures r == InvalidRequest ==> exchanges.entries == old(exchanges.entries) && enrollments == old(enrollments)
      ensures r != InvalidRequest ==> enrollments == UnexpiredPending(old(enrollments), now)
      ensures r in {Unavailable, Broken} ==> exchanges.entries == Unexpired(old(exchanges.entries), now)
      ensures r == StartOk ==> id in exchanges.entries
      ensures r == StartOk ==> exchanges.entries == Unexpired(old(exchanges.entries), now)[id := exchanges.entries[id]]
      ensures r == StartOk && CanStart(old(code), now) ==>
                Opened(exchanges.entries[id], crypto.bind(id, target, name, key), name, key, old(code.value), now)
    {
      hide Ledger, DeviceStore.Valid, OpenExchanges.Valid, WorkOk, Sourced, PendingOk, MaterialOk, Authority, LedgerOk, TriesAgree, ByteLength, ValidName;
      hide MaterialHolds, StartNoted;
      if |key| != KEY_SIZE || !ValidName(name) || target == "" || ByteLength(target) > MAX_TARGET ||
         exists i :: 0 <= i < |target| && target[i] in {'\r', '\n', '\0'} { return InvalidRequest; }
      Purge(now);
      if code.Some? { CreatorIsActive(); }
      if code.None? || now >= code.value.expires || code.value.attempts >= MAX_STARTS || !CreatorActive() {
        return Unavailable;
      }
      var ok := OpenExchange(target, name, key, id, now);
      return if ok then StartOk else Broken;
    }

    // ---- enrollment ----

    /**
     The exchange and the code it was opened under both last. The creator's authority is never
     what is missing.
     */
    ghost predicate Lasts(e: Open, first: int, second: int)
      reads this
    {
      code.Some? && e.generation == code.value.generation && first < code.value.expires && second < e.expires
    }

    /**
     Finish an exchange: it is off the table and its handle consumed, whatever the outcome. While
     code and exchange last, a message of the right length is put to the library, and `secret` is
     what it makes of it; exactly the app's proof of it makes the exchange a pending enrollment.
     */
    method PairingFinish(id: string, message: Bytes, proof: Bytes, first: int, second: int)
      returns (r: Option<Bytes>, ghost secret: Option<Bytes>)
      requires Valid() && clock <= first <= second
      modifies this, exchanges, exchanges.native, exchanges.owned
      ensures exchanges.owned == old(exchanges.owned)
      ensures Valid() && clock == second
      ensures exchanges.entries == old(exchanges.entries) - {id}
      ensures id in old(exchanges.entries) ==>
                exchanges.native.spent == old(exchanges.native.spent) + {old(exchanges.entries[id].pake.handle)}
      ensures code == old(code) && past == old(past) && Aside() == old(Aside())
      ensures exchanges.native.failures == old(exchanges.native.failures)
      ensures secret.Some? ==> id in old(exchanges.entries)
      ensures var asked := id in old(exchanges.entries) && old(Lasts(exchanges.entries[id], first, second)) && |message| == MESSAGE_SIZE;
        exchanges.native.outcomes == if asked then old(exchanges.native.outcomes)[old(exchanges.entries[id].pake.handle) := secret]
                                     else old(exchanges.native.outcomes)
      ensures r.Some? <==> secret.Some? && AppProves(crypto, devices.identify, old(exchanges.entries[id]), secret.value, proof)
      ensures r.None? ==> enrollments == old(enrollments)
      ensures r.Some? ==> id in enrollments && enrollments[id].secret == secret.value
      ensures r.Some? ==> id in enrollments && fresh(enrollments[id]) && enrollments == old(enrollments)[id := enrollments[id]]
      ensures r.Some? ==> Confirmed(crypto, devices.identify, old(exchanges.entries[id]), enrollments[id], proof, r.value)
      ensures r.Some? ==> old(Lasts(exchanges.entries[id], first, second)) && enrollments[id].expires == code.value.expires
    {
      hide Ledger, DeviceStore.Valid, OpenExchanges.Valid, WorkOk, Sourced, PendingOk, Authority, TriesAgree, MaterialOk;
      if code.Some? { CreatorIsActive(); }
      LedgerLater(crypto, code, lastCode, exchanges.entries, enrollments, past, clock, second);
      clock := second;
      r, secret := None, None;
      if id !in exchanges.entries {
        assert exchanges.entries - {id} == exchanges.entries;
        return;
      }
      var e := exchanges.entries[id];
      var stands := code.Some? && code.value.generation == e.generation && first < code.value.expires && second < e.expires && CreatorActive();
      ghost var open := exchanges.entries;
      var shared := exchanges.Consume(id, if stands then Some(message) else None);
      secret := shared;
      var device := devices.identify(e.key);
      if shared.None? || |proof| != KEY_SIZE || proof != crypto.mac(shared.value, "app", e.context, device) {
        FewerMaterial(code, open, enrollments, exchanges.entries, enrollments);
        Forget(crypto, code, lastCode, open, enrollments, past, clock, exchanges.entries, enrollments);
        return;
      }
      r := Some(crypto.mac(shared.value, "core", e.context, device));
      AddPending(id, e, shared.value, open);
    }

    /** The confirmed exchange waits for the account credentials until its code expires. */
    method AddPending(id: string, e: Open, secret: Bytes, ghost open: map<string, Open>)
      requires StoresOk() && TokensOk() && SourcedOk() && TriesAgree() && PendingOk(crypto, devices.identify, enrollments)
      requires Ledger(crypto, code, lastCode, open, enrollments, past, clock) && MaterialOk(code, open, enrollments)
      requires id in open && open[id] == e && exchanges.entries == open - {id}
      requires code.Some? && code.value.generation == e.generation
      modifies this`enrollments
      ensures Valid()
      ensures id in enrollments && fresh(enrollments[id]) && enrollments == old(enrollments)[id := enrollments[id]]
      ensures FromExchange(crypto, devices.identify, e, code.value.expires, enrollments[id], secret)
    {
      hide Ledger, DeviceStore.Valid, OpenExchanges.Valid, WorkOk, Sourced, PendingOk, Authority, MaterialOk;
      ghost var before := enrollments;
      var p := new Pending(e.key, e.name, e.generation, code.value.expires,
                           crypto.hash(crypto.mac(secret, "enroll", e.context, devices.identify(e.key))), secret, e.context);
      Confirm(crypto, code.value, lastCode, open, before, past, clock, id, p);
      OnePending(crypto, devices.identify, before, id, p);
      OneConfirmed(code, open, before, id, p);
      enrollments := enrollments[id := p];
    }

    /** The state of codes and exchanges. */
    ghost function Codes(): (Option<Code>, Option<int>, map<string, Open>)
      reads this, exchanges
    {
      (code, lastCode, exchanges.entries)
    }

    predicate EnrollmentValid(p: Pending, first: int, second: int)
      reads this, devices
    {
      && code.Some? && p.generation == code.value.generation && first < p.expires && second < code.value.expires
      && CreatorActive()
    }

    /** Its code is still the current one, and neither is over. The creator's authority is never what is missing. */
    ghost predicate Stands(p: Pending, first: int, second: int)
      reads this
    {
      Current(code, p, first, second)
    }

    /** What a request with credentials must bring before its password is looked at. */
    ghost predicate MayTry(id: string, proof: Bytes, username: string, password: string, first: int, second: int)
      reads this, enrollments.Values
    {
      && ByteLength(username) <= MAX_USERNAME && ByteLength(password) <= MAX_PASSWORD
      && id in enrollments && Stands(enrollments[id], first, second) && enrollments[id].attempts < MAX_TRIES
      && |proof| == KEY_SIZE && crypto.hash(proof) == enrollments[id].proofHash && slots < SLOTS
    }

    /**
     The first half of an enrollment: admit a request to the password work, against the tries of
     its enrollment and the password slots.
     */
    method EnrollBegin(id: string, proof: Bytes, username: string, password: string, first: int, second: int) returns (r: Option<nat>)
      requires Valid() && clock <= first <= second
      modifies this, enrollments.Values
      ensures Valid() && clock == second
      ensures r.Some? <==> old(MayTry(id, proof, username, password, first, second))
      ensures r.Some? ==> r.value !in old(work) && slots == old(slots) + 1
      ensures r.Some? ==> id in enrollments && work == old(work)[r.value := Credentials(id, enrollments[id], proof, username, password)]
      ensures r.Some? ==> TryNoted(old(past), past, id) && enrollments[id].attempts == old(enrollments[id].attempts) + 1
      ensures r.None? ==> slots == old(slots) && work == old(work) && past == old(past)
      ensures enrollments == old(enrollments) && Codes() == old(Codes()) && mishaps == old(mishaps)
      ensures sessions == old(sessions) && challenges == old(challenges)
    {
      hide Ledger, DeviceStore.Valid, OpenExchanges.Valid, WorkOk, Sourced, PendingOk, Authority, ByteLength, MaterialOk, TryNoted;
      if code.Some? { CreatorIsActive(); }
      MoveClock(second);
      if ByteLength(username) > MAX_USERNAME || ByteLength(password) > MAX_PASSWORD { return None; }
      if id !in enrollments { return None; }
      var p := enrollments[id];
      if !EnrollmentValid(p, first, second) || p.attempts >= MAX_TRIES || |proof| != KEY_SIZE || crypto.hash(proof) != p.proofHash {
        return None;
      }
      if slots >= SLOTS { return None; }
      var ticket := AdmitTry(id, proof, username, password);
      return Some(ticket);
    }

    /** The request takes a slot, and its password counts against the enrollment. */
    method AdmitTry(id: string, proof: Bytes, username: string, password: string) returns (ticket: nat)
      requires Valid() && code.Some? && slots < SLOTS && id in enrollments && enrollments[id].attempts < MAX_TRIES
      requires |proof| == KEY_SIZE && crypto.hash(proof) == enrollments[id].proofHash
      modifies this`slots, this`work, this`tickets, this`past, enrollments.Values
      ensures Valid()
      ensures ticket !in old(work) && slots == old(slots) + 1
      ensures work == old(work)[ticket := Credentials(id, enrollments[id], proof, username, password)]
      ensures TryNoted(old(past), past, id) && enrollments[id].attempts == old(enrollments[id].attempts) + 1
    {
      hide Ledger, DeviceStore.Valid, OpenExchanges.Valid, WorkOk, Sourced, PendingOk, Authority, MaterialOk, TryNoted;
      PendingIsDerived(crypto, devices.identify, enrollments, id);
      TakeSlot(Credentials(id, enrollments[id], proof, username, password));
      CountTry(id);
      ticket := tickets - 1;
    }

    /** Time goes on. */
    method MoveClock(now: int)
      requires Valid() && clock <= now
      modifies this`clock
      ensures Valid() && clock == now
    {
      hide Ledger, DeviceStore.Valid, OpenExchanges.Valid, WorkOk, Sourced, PendingOk, Authority, MaterialOk;
      LedgerLater(crypto, code, lastCode, exchanges.entries, enrollments, past, clock, now);
      clock := now;
    }

    /** One more password for a pending enrollment. */
    method CountTry(id: string)
      requires Valid() && code.Some? && id in enrollments && enrollments[id].attempts < MAX_TRIES
      modifies this`past, enrollments.Values
      ensures Valid() && TryNoted(old(past), past, id)
      ensures enrollments[id].attempts == old(enrollments[id].attempts) + 1
    {
      hide Ledger, DeviceStore.Valid, OpenExchanges.Valid, WorkOk, Sourced, PendingOk, Authority, MaterialOk;
      var p := enrollments[id];
      PendingIsDerived(crypto, devices.identify, enrollments, id);
      Try(crypto, code.value, lastCode, exchanges.entries, enrollments, past, clock, id);
      p.attempts := p.attempts + 1;
      past := Tried(past, id);
    }

    /** The tries of an enrollment are those of its account, and the slots in use those of the requests at work. */
    lemma TriesOf(id: string)
      requires Valid()
      ensures id in enrollments ==> id in past.accounts && enrollments[id].attempts == past.accounts[id].tries
      ensures slots == |work|
    {
      hide Ledger, DeviceStore.Valid, OpenExchanges.Valid, Sourced, PendingOk, Authority, MaterialOk, WorkItemOk;
    }

    /** Occupy a password slot for some work. */
    method TakeSlot(w: Work)
      requires TokensOk() && slots < SLOTS && WorkItemOk(crypto, devices.identify, w)
      modifies this`slots, this`work, this`tickets
      ensures TokensOk() && slots == old(slots) + 1 && tickets == old(tickets) + 1
      ensures tickets - 1 !in old(work) && work == old(work)[tickets - 1 := w]
    {
      hide Authority;
      slots, work, tickets := slots + 1, work[tickets := w], tickets + 1;
    }

    /** The password work of a request is over: take its second section up, and give its slot back. */
    method EndWork(ticket: nat, now: int) returns (w: Work)
      requires Valid() && clock <= now && ticket in work
      modifies this`clock, this`slots, this`work
      ensures Valid() && clock == now
      ensures w == old(work[ticket]) && WorkItemOk(crypto, devices.identify, w)
      ensures slots == old(slots) - 1 && work == old(work) - {ticket}
    {
      hide Ledger, DeviceStore.Valid, OpenExchanges.Valid, WorkOk, Sourced, PendingOk, Authority, MaterialOk, WorkItemOk;
      LedgerLater(crypto, code, lastCode, exchanges.entries, enrollments, past, clock, now);
      WorkIsOk(crypto, devices.identify, work, tickets, slots, ticket);
      clock, w := now, work[ticket];
      FreeSlot(ticket);
    }

    /** Give a password slot back. */
    method FreeSlot(ticket: nat)
      requires TokensOk() && ticket in work
      modifies this`slots, this`work
      ensures TokensOk() && slots == old(slots) - 1 && work == old(work) - {ticket}
    {
      hide Authority;
      assert (work - {ticket}).Keys == work.Keys - {ticket};
      assert |work - {ticket}| == |(work - {ticket}).Keys| && |work| == |work.Keys|;
      slots, work := slots - 1, work - {ticket};
    }

    ghost predicate StillPending(w: Work, first: int, second: int)
      requires w.Credentials?
      reads this
    {
      w.id in enrollments && enrollments[w.id] == w.pending && Stands(w.pending, first, second)
    }

    /** Why a device could not be put on record: its key is there already, the record is full, or a save failed. */
    twostate predicate CannotSave(p: Pending)
      reads devices
    {
      || devices.identify(p.key) in old(devices.devices)
      || |old(devices.devices)| >= MAX_DEVICES
      || devices.failures > old(devices.failures)
    }

    /** Add the device of a standing enrollment; a store that cannot leaves everything as it was. */
    method AddDevice(w: Work, first: int, second: int, now: int) returns (r: EnrollResult)
      requires Valid() && clock == now && second <= now && now != ZERO_TIME
      requires w.Credentials? && WorkItemOk(crypto, devices.identify, w) && crypto.matches(w.username, w.password)
      requires StillPending(w, first, second)
      modifies this`code, this`enrollments, this`past, devices, exchanges, exchanges.native, exchanges.owned
      ensures exchanges.owned == old(exchanges.owned)
      ensures Valid()
      ensures r == NotSaved || r == Added(devices.identify(w.pending.key))
      ensures r == NotSaved <==> CannotSave(w.pending)
      ensures r.Added? ==> devices.failures == old(devices.failures)
      ensures r.Added? ==> EnrollNoted(old(past), past, w, r.device, second)
      ensures r.Added? ==> AddedTo(old(devices.devices), devices.devices, r.device, w.pending, now)
      ensures r.Added? ==> code.None? && exchanges.entries == map[] && enrollments == map[] && exchanges.native.states == {}
      ensures !r.Added? ==> Codes() == old(Codes()) && enrollments == old(enrollments) && past == old(past)
      ensures !r.Added? ==> devices.devices == old(devices.devices)
    {
      hide Ledger, DeviceStore.Valid, OpenExchanges.Valid, WorkOk, Sourced, PendingOk, MaterialOk, Authority, Genuine, ValidName, Trim;
      hide EnrollNoted, TriesAgree, WorkItemOk, AddedTo, ActiveIn;
      PendingIsAdmissible(code, exchanges.entries, enrollments, w.id);
      ghost var before := devices.devices;
      var saved := PutOnRecord(w.pending, now);
      if !saved { return NotSaved; }
      AddedIsActive(before, devices.devices, devices.identify(w.pending.key), w.pending, now);
      SpendCode(w, second, devices.identify(w.pending.key), before);
      return Added(devices.identify(w.pending.key));
    }

    /** The device record of an enrollment. */
    method PutOnRecord(p: Pending, now: int) returns (saved: bool)
      requires devices.Valid() && now != ZERO_TIME && Admissible(p.key, p.name)
      modifies devices
      ensures devices.Valid()
      ensures !saved <==> CannotSave(p)
      ensures saved ==> devices.failures == old(devices.failures)
      ensures saved ==> AddedTo(old(devices.devices), devices.devices, devices.identify(p.key), p, now)
      ensures !saved ==> devices.devices == old(devices.devices)
    {
      hide DeviceStore.Valid, ValidName, Trim;
      var added := devices.Add(p.name, p.key, now);
      saved := added.Ok?;
    }

    /** The device is on record: its code is spent, and whatever hung on the code is gone. */
    method SpendCode(w: Work, second: int, device: string, ghost before: Table)
      requires StoresOk() && LedgerOk()
      requires WorkOk(crypto, devices.identify, work, tickets, slots) && Authority(sessions, challenges, code, before)
      requires Sourced(before, initial, past.enrolled) && forall id :: ActiveIn(before, id) ==> ActiveIn(devices.devices, id)
      requires devices.devices.Keys == before.Keys + {device}
      requires w.Credentials? && WorkItemOk(crypto, devices.identify, w) && crypto.matches(w.username, w.password)
      requires w.id in enrollments && enrollments[w.id] == w.pending && device == devices.identify(w.pending.key)
      requires code.Some? && w.pending.generation == code.value.generation && second < code.value.expires
      modifies this`code, this`enrollments, this`past, exchanges, exchanges.native, exchanges.owned
      ensures exchanges.owned == old(exchanges.owned)
      ensures Valid() && code.None? && exchanges.entries == map[] && enrollments == map[] && exchanges.native.states == {}
      ensures EnrollNoted(old(past), past, w, device, second)
    {
      hide Ledger, DeviceStore.Valid, OpenExchanges.Valid, WorkOk, Sourced, PendingOk, MaterialOk, Authority, Genuine;
      ghost var e := Evidence(w, device, second);
      EvidenceIsGenuine(crypto, devices.identify, code, lastCode, exchanges.entries, enrollments, past, clock, w, second);
      Enrollment.Enroll(crypto, code.value, lastCode, exchanges.entries, enrollments, past, clock, e);
      AuthorityGrows(sessions, challenges, code, before, devices.devices);
      SourcedOneMore(before, initial, past.enrolled, device, devices.devices, e);
      NothingPending(crypto, devices.identify);
      NoMaterial();
      ClearPairingsLocked();
      code, past := None, WithEnrolled(past, e);
    }

    /**
     The second half: with the right password, and the enrollment still standing, the device is
     added and the code is gone, with everything that depended on it.
     */
    method EnrollCommit(ticket: nat, failed: bool, first: int, second: int, now: int) returns (r: EnrollResult)
      requires Valid() && clock <= first <= second <= now && now != ZERO_TIME
      requires ticket in work && work[ticket].Credentials?
      modifies this, devices, exchanges, exchanges.native, exchanges.owned
      ensures exchanges.owned == old(exchanges.owned)
      ensures Valid() && clock == now
      ensures slots == old(slots) - 1 && work == old(work) - {ticket}
      ensures sessions == old(sessions) && challenges == old(challenges) && lastCode == old(lastCode) && mishaps == old(mishaps)
      ensures r.Added? ==> devices.failures == old(devices.failures)
      ensures var w := old(work[ticket]);
        && (r == CheckFailed <==> failed)
        && (r == WrongPassword <==> !failed && !crypto.matches(w.username, w.password))
        && (r == Expired <==> !failed && crypto.matches(w.username, w.password) && !old(StillPending(w, first, second)))
        && (r == NotSaved <==> !failed && crypto.matches(w.username, w.password) && old(StillPending(w, first, second))
                               && CannotSave(w.pending))
        && (r.Added? ==> old(StillPending(w, first, second)) && crypto.matches(w.username, w.password))
        && (r.Added? ==> r.device == devices.identify(w.pending.key))
        && (r.Added? ==> EnrollNoted(old(past), past, w, r.device, second))
        && (r.Added? ==> AddedTo(old(devices.devices), devices.devices, r.device, w.pending, now))
      ensures r.Added? ==> code.None? && exchanges.entries == map[] && enrollments == map[] && exchanges.native.states == {}
      ensures !r.Added? ==> Codes() == old(Codes()) && enrollments == old(enrollments) && past == old(past)
      ensures !r.Added? ==> devices.devices == old(devices.devices)
    {
      hide Ledger, DeviceStore.Valid, OpenExchanges.Valid, WorkOk, Sourced, PendingOk, Authority, EnrollNoted, AddedTo, MaterialOk;
      hide WorkItemOk, LedgerOk, TriesAgree, MaterialHolds, SourcedOk;
      var w := EndWork(ticket, now);
      if failed { return CheckFailed; }
      if !crypto.matches(w.username, w.password) { return WrongPassword; }
      r := AddIfStanding(w, first, second, now);
    }

    /** With the right password, see whether the enrollment still stands after the password work. */
    method AddIfStanding(w: Work, first: int, second: int, now: int) returns (r: EnrollResult)
      requires Valid() && clock == now && second <= now && now != ZERO_TIME
      requires w.Credentials? && WorkItemOk(crypto, devices.identify, w) && crypto.matches(w.username, w.password)
      modifies this`code, this`enrollments, this`past, devices, exchanges, exchanges.native, exchanges.owned
      ensures exchanges.owned == old(exchanges.owned)
      ensures Valid()
      ensures r in {Expired, NotSaved, Added(devices.identify(w.pending.key))}
      ensures r == Expired <==> !old(StillPending(w, first, second))
      ensures r == NotSaved <==> old(StillPending(w, first, second)) && CannotSave(w.pending)
      ensures r.Added? ==> devices.failures == old(devices.failures)
      ensures r.Added? ==> EnrollNoted(old(past), past, w, r.device, second)
      ensures r.Added? ==> AddedTo(old(devices.devices), devices.devices, r.device, w.pending, now)
      ensures r.Added? ==> code.None? && exchanges.entries == map[] && enrollments == map[] && exchanges.native.states == {}
      ensures !r.Added? ==> Codes() == old(Codes()) && enrollments == old(enrollments) && past == old(past)
      ensures !r.Added? ==> devices.devices == old(devices.devices)
    {
      hide Ledger, DeviceStore.Valid, OpenExchanges.Valid, WorkOk, Sourced, PendingOk, Authority, EnrollNoted, AddedTo, MaterialOk;
      hide WorkItemOk, LedgerOk, TriesAgree, MaterialHolds;
      if code.Some? { CreatorIsActive(); }
      if w.id !in enrollments || enrollments[w.id] != w.pending || !EnrollmentValid(w.pending, first, second) { return Expired; }
      r := AddDevice(w, first, second, now);
    }

    // ---- sessions ----

    /** Admit an account sign-in to the password work. */
    method SignInBegin(username: string, password: string) returns (r: Option<nat>)
      requires Valid()
      modifies this`slots, this`work, this`tickets
      ensures Valid()
      ensures r.Some? <==> ByteLength(username) <= MAX_USERNAME && ByteLength(password) <= MAX_PASSWORD && old(slots) < SLOTS
      ensures r.Some? ==> r.value !in old(work) && work == old(work)[r.value := SignIn(username, password)] && slots == old(slots) + 1
      ensures r.None? ==> work == old(work) && slots == old(slots)
    {
      hide Ledger, DeviceStore.Valid, OpenExchanges.Valid, WorkOk, Sourced, PendingOk, MaterialOk, Authority, ByteLength;
      if ByteLength(username) > MAX_USERNAME || ByteLength(password) > MAX_PASSWORD || slots >= SLOTS { return None; }
      TakeSlot(SignIn(username, password));
      return Some(tickets - 1);
    }

    /** Forget the sessions that are over. */
    method PurgeSessions(now: int)
      modifies this`sessions
      ensures sessions == UnexpiredSessions(old(sessions), now)
    {
      var todo := sessions.Keys;
      while todo != {}
        invariant todo <= sessions.Keys && SubMap(sessions, old(sessions))
        invariant forall t :: t in old(sessions) && now < old(sessions)[t].expires ==> t in sessions
        invariant forall t :: t in sessions && t !in todo ==> now < sessions[t].expires
      {
        var t :| t in todo;
        if now >= sessions[t].expires { sessions := sessions - {t}; }
        todo := todo - {t};
      }
    }

    /** Make room and open a session, unless too many last. The expiry was fixed before the lock, at `first`. */
    method OpenSession(token: string, device: string, first: int, second: int) returns (r: Option<Session>)
      requires TokensOk() && first <= second && (device != "" ==> ActiveIn(devices.devices, device))
      modifies this`sessions
      ensures TokensOk()
      ensures r.Some? <==> |UnexpiredSessions(old(sessions), second)| < MAX_SESSIONS
      ensures r.Some? ==> r.value == Session(first + SESSION_LIFETIME, device)
      ensures sessions == WithSession(UnexpiredSessions(old(sessions), second), token, r)
    {
      hide WorkOk, ActiveIn, Authority;
      PurgeSessions(second);
      FewerTokens(old(sessions), challenges, code, devices.devices, sessions, challenges);
      if |sessions| >= MAX_SESSIONS { return None; }
      var s := Session(first + SESSION_LIFETIME, device);
      OneSession(sessions, challenges, code, devices.devices, token, s);
      sessions := sessions[token := s];
      return Some(s);
    }

    /** The right password opens an account session. */
    method SignInFinish(ticket: nat, failed: bool, token: string, first: int, second: int) returns (r: Option<Session>)
      requires Valid() && clock <= first <= second && ticket in work && work[ticket].SignIn?
      modifies this
      ensures Valid() && clock == second
      ensures slots == old(slots) - 1 && work == old(work) - {ticket}
      ensures var w := old(work[ticket]);
        var admitted := !failed && crypto.matches(w.username, w.password);
        && (r.Some? <==> admitted && |UnexpiredSessions(old(sessions), second)| < MAX_SESSIONS)
        && (r.Some? ==> r.value == Session(first + SESSION_LIFETIME, ""))
        && sessions == if admitted then WithSession(UnexpiredSessions(old(sessions), second), token, r) else old(sessions)
      ensures Codes() == old(Codes()) && enrollments == old(enrollments) && past == old(past)
      ensures challenges == old(challenges) && mishaps == old(mishaps)
    {
      hide Ledger, DeviceStore.Valid, OpenExchanges.Valid, WorkOk, Sourced, PendingOk, MaterialOk, Authority;
      var w := EndWork(ticket, second);
      if failed || !crypto.matches(w.username, w.password) { return None; }
      r := OpenSession(token, "", first, second);
    }

    /** Offer a challenge to an active device. */
    method DeviceChallenge(device: string, id: string, now: int) returns (r: Option<Challenge>)
      requires Valid() && clock <= now
      modifies this`challenges
      ensures Valid()
      ensures r.Some? <==> HexId(device) && ActiveIn(devices.devices, device)
                           && |UnexpiredChallenges(old(challenges), now)| < MAX_CHALLENGES
      ensures r.Some? ==> r.value == Challenge(device, now + CHALLENGE_LIFETIME)
      ensures challenges ==
                if !HexId(device) || !ActiveIn(devices.devices, device) then old(challenges)
                else if r.None? then UnexpiredChallenges(old(challenges), now)
                else UnexpiredChallenges(old(challenges), now)[id := r.value]
    {
      hide Ledger, DeviceStore.Valid, OpenExchanges.Valid, WorkOk, Sourced, PendingOk, MaterialOk, Authority;
      if |device| != 64 || exists i :: 0 <= i < |device| && !('0' <= device[i] <= '9' || 'a' <= device[i] <= 'f') { return None; }
      if devices.Active(device).None? { return None; }
      PurgeChallenges(now);
      FewerTokens(sessions, old(challenges), code, devices.devices, sessions, challenges);
      if |challenges| >= MAX_CHALLENGES { return None; }
      var c := Challenge(device, now + CHALLENGE_LIFETIME);
      OneChallenge(sessions, challenges, code, devices.devices, id, c);
      challenges := challenges[id := c];
      return Some(c);
    }

    /** Forget the challenges that are over. */
    method PurgeChallenges(now: int)
      modifies this`challenges
      ensures challenges == UnexpiredChallenges(old(challenges), now)
    {
      var todo := challenges.Keys;
      while todo != {}
        invariant todo <= challenges.Keys && SubMap(challenges, old(challenges))
        invariant forall t :: t in old(challenges) && now < old(challenges)[t].expires ==> t in challenges
        invariant forall t :: t in challenges && t !in todo ==> now < challenges[t].expires
      {
        var t :| t in todo;
        if now >= challenges[t].expires { challenges := challenges - {t}; }
        todo := todo - {t};
      }
    }

    method DropChallenge(id: string)
      requires TokensOk()
      modifies this`challenges
      ensures TokensOk() && challenges == old(challenges) - {id}
    {
      hide WorkOk, ActiveIn, Authority;
      FewerTokens(sessions, challenges, code, devices.devices, sessions, challenges - {id});
      challenges := challenges - {id};
    }

    /** A challenge is used up by the first login that names it, successful or not. */
    method DeviceLogin(device: string, challenge: string, signature: Bytes, token: string, first: int, second: int)
      returns (r: Option<Session>)
      requires Valid() && clock <= first <= second
      modifies this`challenges, this`sessions
      ensures Valid()
      ensures challenges == old(challenges) - {challenge}
      ensures var admitted := MayLogin(crypto, old(challenges), devices.devices, device, challenge, signature, first);
        && (r.Some? <==> admitted && |UnexpiredSessions(old(sessions), second)| < MAX_SESSIONS)
        && (r.Some? ==> r.value == Session(second + SESSION_LIFETIME, device))
        && sessions == if admitted then WithSession(UnexpiredSessions(old(sessions), second), token, r) else old(sessions)
    {
      hide Ledger, DeviceStore.Valid, OpenExchanges.Valid, WorkOk, Sourced, PendingOk, MaterialOk, Authority, UnexpiredSessions, WithSession;
      var known, record := challenge in challenges, devices.Active(device);
      var c := if known then challenges[challenge] else Challenge("", 0);
      DropChallenge(challenge);
      if !known || record.None? || first >= c.expires || c.device != device || |signature| != SIGNATURE_SIZE ||
         !crypto.verifies(record.value.key, device, challenge, signature) { return None; }
      r := OpenSession(token, device, second, second);
    }

    /**
     The session of a token, if it lasts. A session of a revoked device is never met: revocation
     removed it.
     */
    method Authenticate(token: string, now: int) returns (r: Option<Session>)
      requires Valid()
      modifies this`sessions
      ensures Valid()
      ensures r.Some? <==> token in old(sessions) && now < old(sessions)[token].expires
      ensures r.Some? ==> r.value == old(sessions)[token] && sessions == old(sessions)
      ensures r.Some? && r.value.device != "" ==> ActiveIn(devices.devices, r.value.device)
      ensures r.None? ==> sessions == old(sessions) - {token}
    {
      hide Ledger, DeviceStore.Valid, OpenExchanges.Valid, WorkOk, Sourced, PendingOk, MaterialOk, Authority;
      FewerTokens(sessions, challenges, code, devices.devices, sessions - {token}, challenges);
      if token !in sessions {
        assert sessions - {token} == sessions;
        return None;
      }
      var s := sessions[token];
      SessionIsActive(sessions, challenges, code, devices.devices, token);
      if now >= s.expires || (s.device != "" && devices.Active(s.device).None?) {
        sessions := sessions - {token};
        return None;
      }
      return Some(s);
    }

    method DropSession(token: string)
      requires Valid()
      modifies this`sessions
      ensures Valid() && sessions == old(sessions) - {token}
    {
      hide Ledger, DeviceStore.Valid, OpenExchanges.Valid, WorkOk, Sourced, PendingOk, MaterialOk, Authority;
      FewerTokens(sessions, challenges, code, devices.devices, sessions - {token}, challenges);
      sessions := sessions - {token};
    }

    /** Sign out: the session is checked in one section and removed in another. */
    method Logout(token: string, now: int) returns (ok: bool)
      requires Valid()
      modifies this`sessions
      ensures Valid() && sessions == old(sessions) - {token}
      ensures ok <==> token in old(sessions) && now < old(sessions)[token].expires
    {
      var s := Authenticate(token, now);
      if s.None? { return false; }
      DropSession(token);
      return true;
    }

    // ---- revocation ----

    method DropSessionsOf(id: string)
      modifies this`sessions
      ensures sessions == SessionsBut(old(sessions), id)
    {
      var todo := sessions.Keys;
      while todo != {}
        invariant todo <= sessions.Keys && SubMap(sessions, old(sessions))
        invariant forall t :: t in old(sessions) && old(sessions)[t].device != id ==> t in sessions
        invariant forall t :: t in sessions && t !in todo ==> sessions[t].device != id
      {
        var t :| t in todo;
        if sessions[t].device == id { sessions := sessions - {t}; }
        todo := todo - {t};
      }
    }

    method DropChallengesOf(id: string)
      modifies this`challenges
      ensures challenges == ChallengesBut(old(challenges), id)
    {
      var todo := challenges.Keys;
      while todo != {}
        invariant todo <= challenges.Keys && SubMap(challenges, old(challenges))
        invariant forall t :: t in old(challenges) && old(challenges)[t].device != id ==> t in challenges
        invariant forall t :: t in challenges && t !in todo ==> challenges[t].device != id
      {
        var t :| t in todo;
        if challenges[t].device == id { challenges := challenges - {t}; }
        todo := todo - {t};
      }
    }

    /** A code goes with its creator. */
    method DropCodeOf(id: string)
      requires StoresOk() && LedgerOk() && TriesAgree() && MaterialHolds() && PendingOk(crypto, devices.identify, enrollments)
      modifies this`code, this`enrollments, exchanges, exchanges.native, exchanges.owned
      ensures exchanges.owned == old(exchanges.owned)
      ensures StoresOk() && LedgerOk() && TriesAgree() && MaterialHolds() && PendingOk(crypto, devices.identify, enrollments)
      ensures code == CodeBut(old(code), id)
      ensures code == old(code) ==> exchanges.entries == old(exchanges.entries) && enrollments == old(enrollments)
      ensures code != old(code) ==> exchanges.entries == map[] && enrollments == map[] && exchanges.native.states == {}
    {
      hide Ledger, DeviceStore.Valid, OpenExchanges.Valid, PendingOk, MaterialOk;
      if code.Some? && code.value.creator == id {
        DropCode(crypto, code, lastCode, exchanges.entries, enrollments, past, clock);
        NothingPending(crypto, devices.identify);
        NoMaterial();
        code := None;
        ClearPairingsLocked();
      }
    }

    /** Once its record is withdrawn, nothing acts for the device any more. */
    method DropAllOf(id: string, ghost before: Table)
      requires StoresOk() && LedgerOk() && TriesAgree() && MaterialHolds() && PendingOk(crypto, devices.identify, enrollments)
      requires WorkOk(crypto, devices.identify, work, tickets, slots) && SourcedOk()
      requires Authority(sessions, challenges, code, before)
      requires id in before && devices.devices == before[id := before[id].(revoked := true)]
      modifies this`code, this`enrollments, this`sessions, this`challenges, exchanges, exchanges.native, exchanges.owned
      ensures exchanges.owned == old(exchanges.owned)
      ensures Valid()
      ensures sessions == SessionsBut(old(sessions), id) && challenges == ChallengesBut(old(challenges), id)
      ensures code == CodeBut(old(code), id)
      ensures code == old(code) ==> exchanges.entries == old(exchanges.entries) && enrollments == old(enrollments)
      ensures code != old(code) ==> exchanges.entries == map[] && enrollments == map[] && exchanges.native.states == {}
    {
      hide Ledger, DeviceStore.Valid, OpenExchanges.Valid, WorkOk, Sourced, PendingOk, MaterialOk, Authority;
      hide SessionsBut, ChallengesBut, CodeBut;
      DropSessionsOf(id);
      DropChallengesOf(id);
      DropCodeOf(id);
      AuthorityRevoked(old(sessions), old(challenges), old(code), before, devices.devices, id);
    }

    /**
     Withdraw a device's record, then everything that acts for it, then its VPN peer. The peer's
     removal may fail and is then reported, but the revocation stands.
     */
    method RevokeLocked(id: string) returns (ok: bool, ghost committed: bool)
      requires Valid()
      modifies this`code, this`enrollments, this`sessions, this`challenges, this`mishaps, devices, exchanges, exchanges.native, exchanges.owned
      ensures exchanges.owned == old(exchanges.owned)
      ensures Valid()
      ensures ok ==> committed
      ensures committed ==> id in old(devices.devices)
      ensures committed ==> devices.devices == old(devices.devices)[id := old(devices.devices[id]).(revoked := true)]
      ensures committed ==> sessions == SessionsBut(old(sessions), id) && challenges == ChallengesBut(old(challenges), id)
      ensures committed ==> code == CodeBut(old(code), id)
      ensures code == old(code) ==> exchanges.entries == old(exchanges.entries) && enrollments == old(enrollments)
      ensures code != old(code) ==> exchanges.entries == map[] && enrollments == map[] && exchanges.native.states == {}
      ensures !committed ==> devices.devices == old(devices.devices) && code == old(code)
      ensures !committed ==> sessions == old(sessions) && challenges == old(challenges)
      ensures !committed && id in devices.devices ==> devices.onDisk && !devices.devices[id].revoked
      ensures devices.failures == old(devices.failures) + if !committed && id in old(devices.devices) then 1 else 0
      ensures mishaps == old(mishaps) + if committed && !ok then 1 else 0
      ensures committed && !vpn ==> ok
    {
      hide Ledger, DeviceStore.Valid, OpenExchanges.Valid, WorkOk, Sourced, PendingOk, Authority, SessionsBut, ChallengesBut, CodeBut, MaterialOk;
      ghost var before := devices.devices;
      var done := devices.Revoke(id);
      if !done { return false, false; }
      SourcedSame(before, initial, past.enrolled, devices.devices);
      DropAllOf(id, before);
      var removed: bool := *;  // the VPN peer
      if vpn && !removed {
        mishaps := mishaps + 1;
        return false, true;
      }
      return true, true;
    }

    /** Look the device up in the list of records. */
    method RevocationCommitted(id: string) returns (r: bool)
      requires devices.Valid()
      ensures r <==> id in devices.devices && devices.devices[id].revoked
    {
      hide RecordOk;
      var record := devices.List();
      for i := 0 to |record|
        invariant forall k :: 0 <= k < i ==> record[k].id != id
      {
        if record[i].id == id { return record[i].revoked; }
      }
      return false;
    }

    /** Revocation by the administrator; what the caller is told is what is on record. */
    method Revoke(id: string) returns (r: RevokeResult)
      requires Valid()
      modifies this`code, this`enrollments, this`sessions, this`challenges, this`mishaps, devices, exchanges, exchanges.native, exchanges.owned
      ensures SubMap(enrollments, old(enrollments))
      ensures exchanges.owned == old(exchanges.owned)
      ensures Valid()
      ensures r == NotRevoked <==> !(id in devices.devices && devices.devices[id].revoked)
      ensures r == NotRevoked ==> devices.devices == old(devices.devices) && sessions == old(sessions) && code == old(code)
      ensures r == NotRevoked && id in devices.devices ==> devices.onDisk && devices.failures > old(devices.failures)
      ensures mishaps == old(mishaps) + if r == RevokedWithWarning then 1 else 0
      ensures r == RevokedWithWarning ==> vpn
      ensures r != NotRevoked ==> id in old(devices.devices) && r != NotAuthorized
      ensures r != NotRevoked ==> devices.devices == old(devices.devices)[id := old(devices.devices[id]).(revoked := true)]
      ensures r != NotRevoked ==> sessions == SessionsBut(old(sessions), id) && code == CodeBut(old(code), id)
      ensures TakenWithdrawal(id, old(Now()), Now())
      ensures OnlyAdvances(old(devices.devices), devices.devices)
    {
      hide Ledger, DeviceStore.Valid, OpenExchanges.Valid, TokensOk, SourcedOk, PendingOk, MaterialOk, TriesAgree, SessionsBut, CodeBut, ChallengesBut;
      ghost var committed;
      var ok;
      ok, committed := RevokeLocked(id);
      if ok { return Revoked; }
      var recorded := RevocationCommitted(id);
      return if recorded then RevokedWithWarning else NotRevoked;
    }

    /** Revocation by a device whose session an earlier section found: it must still be active. */
    method RevokeDevice(current: string, id: string) returns (r: RevokeResult)
      requires Valid()
      modifies this`code, this`enrollments, this`sessions, this`challenges, this`mishaps, devices, exchanges, exchanges.native, exchanges.owned
      ensures SubMap(enrollments, old(enrollments))
      ensures exchanges.owned == old(exchanges.owned)
      ensures Valid()
      ensures r == NotAuthorized <==> !old(ActiveIn(devices.devices, current))
      ensures if old(ActiveIn(devices.devices, current)) then TakenWithdrawal(id, old(Now()), Now()) else Now() == old(Now())
      ensures r in {NotRevoked, NotAuthorized} ==> devices.devices == old(devices.devices) && sessions == old(sessions) && code == old(code)
      ensures r in {Revoked, RevokedWithWarning} ==> id in devices.devices && devices.devices[id].revoked
      ensures r == NotRevoked && id in devices.devices ==> devices.failures > old(devices.failures)
      ensures mishaps == old(mishaps) + if r == RevokedWithWarning then 1 else 0
      ensures OnlyAdvances(old(devices.devices), devices.devices)
    {
      hide Server.Valid, TakenWithdrawal;
      if devices.Active(current).None? { return NotAuthorized; }
      r := Revoke(id);
    }

    /** The end of service: nothing stays open. */
    method Shutdown()
      requires Valid()
      modifies this`enrollments, exchanges, exchanges.native, exchanges.owned
      ensures exchanges.owned == old(exchanges.owned)
      ensures Valid() && exchanges.entries == map[] && enrollments == map[] && exchanges.native.states == {}
    {
      hide Ledger, DeviceStore.Valid, OpenExchanges.Valid, WorkOk, Sourced, PendingOk, MaterialOk, Authority;
      Forget(crypto, code, lastCode, exchanges.entries, enrollments, past, clock, map[], map[]);
      FewerMaterial(code, exchanges.entries, enrollments, map[], map[]);
      NothingPending(crypto, devices.identify);
      ClearPairingsLocked();
    }

    // ---- what holds at every unlock ----

    /** One live handle for every open exchange and for nothing else: five at most, far from the limit. */
    lemma LiveHandles()
      requires Valid()
      ensures |exchanges.native.states| == |exchanges.entries| <= MAX_STARTS < HANDLE_LIMIT
      ensures exchanges.native.misses == 0
      ensures |exchanges.entries| + |enrollments| <= if code.Some? then code.value.attempts else 0
      ensures code.Some? ==> code.value.attempts <= MAX_STARTS
    {
      hide AccountsOk, Booked, Evaluated, Spent, Clocked, WorkOk, Sourced, PendingOk, MaterialOk, Authority, TriesAgree, DeviceStore.Valid;
      exchanges.Conserved();
    }

    /** A revoked device has no session, no challenge and no code. */
    lemma RevokedHoldsNothing(id: string)
      requires Valid() && id != "" && !ActiveIn(devices.devices, id)
      ensures forall t :: t in sessions ==> sessions[t].device != id
      ensures forall t :: t in challenges ==> challenges[t].device != id
      ensures code.Some? ==> code.value.creator != id
    {
      hide Ledger, DeviceStore.Valid, OpenExchanges.Valid, WorkOk, Sourced, PendingOk, MaterialOk, TriesAgree;
    }

    /** Over its whole life a code adds one device at most, in time and with both checks made. */
    lemma OneDevicePerCode(generation: string)
      requires Valid()
      ensures |Additions(past.enrolled, generation)| <= 1
      ensures forall i :: 0 <= i < |past.enrolled| ==> Genuine(crypto, past.enrolled[i])
      ensures forall id :: id in devices.devices && id !in initial ==> exists i :: 0 <= i < |past.enrolled| && past.enrolled[i].device == id
    {
      hide DeviceStore.Valid, OpenExchanges.Valid, WorkOk, PendingOk, MaterialOk, Authority, TriesAgree, Genuine;
      AdditionsPerCode(crypto, code, lastCode, exchanges.entries, enrollments, past, clock, generation);
    }

    /** A code is worth 25 password guesses, two at a time, and five exchanges; codes are ten seconds apart. */
    lemma Guesses(generation: string, from: int, width: nat)
      requires Valid()
      ensures |EvaluationsFor(past, generation)| <= 25
      ensures |work| == slots <= SLOTS
      ensures |Pacing.Within(past.lots, from, width)| <= MAX_STARTS * (width / CODE_GAP + 2)
    {
      hide DeviceStore.Valid, OpenExchanges.Valid, Sourced, PendingOk, MaterialOk, Authority, TriesAgree;
      hide Budget, AccountsOk, Booked, Evaluated, Spent, Paced;
      PasswordsPerCode(crypto, code, lastCode, exchanges.entries, enrollments, past, clock, generation);
      GuessRate(past.lots, clock, from, width);
    }

    // ---- runs ----

    method PerformCode(s: Step, first: int, second: int, third: int)
      requires s.CreateCode?
      requires Valid() && clock <= first <= second <= third && third != ZERO_TIME && IsFresh(s, past)
      modifies this, devices, exchanges, exchanges.native, exchanges.owned, enrollments.Values
      ensures Valid() && clock <= third
      ensures fresh(exchanges.owned - old(exchanges.owned)) && fresh(enrollments.Values - old(enrollments.Values))
      ensures GrowsBy(old(past), past, s) && OnlyAdvances(old(devices.devices), devices.devices)
      ensures Taken(crypto, devices.identify, Timed(s, first, second, third), old(Now()), Now())
    {
      hide Server.Valid, CodeNoted, FormatCode, GrowsBy, MayCreate;
      GrowsRefl(past, s);
      var r := NewPairingCode(s.creator, s.draw, s.generation, first);
      if r.Ok? { CreatedGrows(old(past), past, s, first); }
    }

    method PerformStart(s: Step, first: int, second: int, third: int)
      requires s.Start?
      requires Valid() && clock <= first <= second <= third && third != ZERO_TIME && IsFresh(s, past)
      modifies this, devices, exchanges, exchanges.native, exchanges.owned, enrollments.Values
      ensures Valid() && clock <= third
      ensures fresh(exchanges.owned - old(exchanges.owned)) && fresh(enrollments.Values - old(enrollments.Values))
      ensures GrowsBy(old(past), past, s) && OnlyAdvances(old(devices.devices), devices.devices)
      ensures Taken(crypto, devices.identify, Timed(s, first, second, third), old(Now()), Now())
    {
      hide Server.Valid, StartNoted, StartRequestOk, UnexpiredPending, Unexpired, GrowsBy, Opened;
      GrowsRefl(past, s);
      var r := PairingStart(s.target, s.name, s.key, s.id, first);
      if past != old(past) { PaidGrows(old(past), past, old(code).value, s, first); }
    }

    method PerformFinish(s: Step, first: int, second: int, third: int)
      requires s.Finish?
      requires Valid() && clock <= first <= second <= third && third != ZERO_TIME && IsFresh(s, past)
      modifies this, devices, exchanges, exchanges.native, exchanges.owned, enrollments.Values
      ensures Valid() && clock <= third
      ensures fresh(exchanges.owned - old(exchanges.owned)) && fresh(enrollments.Values - old(enrollments.Values))
      ensures GrowsBy(old(past), past, s) && OnlyAdvances(old(devices.devices), devices.devices)
      ensures Taken(crypto, devices.identify, Timed(s, first, second, third), old(Now()), Now())
    {
      hide Server.Valid, Confirmed, GrowsBy;
      GrowsRefl(past, s);
      ghost var secret;
      var r;
      r, secret := PairingFinish(s.id, s.message, s.proof, first, second);
    }

    method PerformBegin(s: Step, first: int, second: int, third: int)
      requires s.Begin?
      requires Valid() && clock <= first <= second <= third && third != ZERO_TIME && IsFresh(s, past)
      modifies this, devices, exchanges, exchanges.native, exchanges.owned, enrollments.Values
      ensures Valid() && clock <= third
      ensures fresh(exchanges.owned - old(exchanges.owned)) && fresh(enrollments.Values - old(enrollments.Values))
      ensures GrowsBy(old(past), past, s) && OnlyAdvances(old(devices.devices), devices.devices)
      ensures Taken(crypto, devices.identify, Timed(s, first, second, third), old(Now()), Now())
    {
      hide Server.Valid, TryNoted, GrowsBy, ByteLength;
      GrowsRefl(past, s);
      TriesOf(s.id);
      var r := EnrollBegin(s.id, s.proof, s.username, s.password, first, second);
      if r.Some? {
        assert Extended(old(work), work, Credentials(s.id, enrollments[s.id], s.proof, s.username, s.password));
        TriedGrows(old(past), past, s.id, s);
      }
    }

    method PerformCommit(s: Step, first: int, second: int, third: int)
      requires s.Commit?
      requires Valid() && clock <= first <= second <= third && third != ZERO_TIME && IsFresh(s, past)
      modifies this, devices, exchanges, exchanges.native, exchanges.owned, enrollments.Values
      ensures Valid() && clock <= third
      ensures fresh(exchanges.owned - old(exchanges.owned)) && fresh(enrollments.Values - old(enrollments.Values))
      ensures GrowsBy(old(past), past, s) && OnlyAdvances(old(devices.devices), devices.devices)
      ensures Taken(crypto, devices.identify, Timed(s, first, second, third), old(Now()), Now())
    {
      hide Server.Valid, EnrollNoted, AddedTo, OnlyAdvances, GrowsBy, Current, Taken;
      GrowsRefl(past, s);
      AdvancesRefl(devices.devices);
      if s.ticket !in work || !work[s.ticket].Credentials? {
        NothingTaken(crypto, devices.identify, Timed(s, first, second, third), Now());
        return;
      }
      var w := work[s.ticket];
      var r := EnrollCommit(s.ticket, s.failed, first, second, third);
      CommitTaken(crypto, devices.identify, Timed(s, first, second, third), old(Now()), Now(), r.Added?);
      if r.Added? {
        EnrolledGrows(old(past), past, w, r.device, second, s);
        AddedAdvances(old(devices.devices), devices.devices, r.device, w.pending, third);
      }
    }

    method PerformSignIn(s: Step, first: int, second: int, third: int)
      requires s.PasswordBegin? || s.PasswordEnd?
      requires Valid() && clock <= first <= second <= third && third != ZERO_TIME && IsFresh(s, past)
      modifies this, devices, exchanges, exchanges.native, exchanges.owned, enrollments.Values
      ensures Valid() && clock <= third
      ensures fresh(exchanges.owned - old(exchanges.owned)) && fresh(enrollments.Values - old(enrollments.Values))
      ensures GrowsBy(old(past), past, s) && OnlyAdvances(old(devices.devices), devices.devices)
      ensures Taken(crypto, devices.identify, Timed(s, first, second, third), old(Now()), Now())
    {
      hide Server.Valid, GrowsBy, ByteLength, UnexpiredSessions;
      GrowsRefl(past, s);
      match s
      case PasswordBegin(username, password) =>
        TriesOf("");
        var r := SignInBegin(username, password);
        if r.Some? { assert Extended(old(work), work, SignIn(username, password)); }
      case PasswordEnd(ticket, failed, token) =>
        if ticket in work && work[ticket].SignIn? {
          var r := SignInFinish(ticket, failed, token, first, second);
        }
    }

    method PerformAsk(s: Step, first: int, second: int, third: int)
      requires s.Ask?
      requires Valid() && clock <= first <= second <= third && third != ZERO_TIME && IsFresh(s, past)
      modifies this, devices, exchanges, exchanges.native, exchanges.owned, enrollments.Values
      ensures Valid() && clock <= third
      ensures fresh(exchanges.owned - old(exchanges.owned)) && fresh(enrollments.Values - old(enrollments.Values))
      ensures GrowsBy(old(past), past, s) && OnlyAdvances(old(devices.devices), devices.devices)
      ensures Taken(crypto, devices.identify, Timed(s, first, second, third), old(Now()), Now())
    {
      hide Server.Valid, GrowsBy, OnlyAdvances, UnexpiredChallenges, HexId, ActiveIn;
      GrowsRefl(past, s);
      AdvancesRefl(devices.devices);
      var r := DeviceChallenge(s.device, s.id, first);
    }

    method PerformLogin(s: Step, first: int, second: int, third: int)
      requires s.Login?
      requires Valid() && clock <= first <= second <= third && third != ZERO_TIME && IsFresh(s, past)
      modifies this, devices, exchanges, exchanges.native, exchanges.owned, enrollments.Values
      ensures Valid() && clock <= third
      ensures fresh(exchanges.owned - old(exchanges.owned)) && fresh(enrollments.Values - old(enrollments.Values))
      ensures GrowsBy(old(past), past, s) && OnlyAdvances(old(devices.devices), devices.devices)
      ensures Taken(crypto, devices.identify, Timed(s, first, second, third), old(Now()), Now())
    {
      hide Server.Valid, GrowsBy, OnlyAdvances, UnexpiredSessions, WithSession, MayLogin, Taken;
      GrowsRefl(past, s);
      AdvancesRefl(devices.devices);
      var r := DeviceLogin(s.device, s.challenge, s.signature, s.token, first, second);
      LoginTaken(crypto, devices.identify, Timed(s, first, second, third), old(Now()), Now(), r);
    }

    method PerformCheck(s: Step, first: int, second: int, third: int)
      requires s.Check? || s.SignOut?
      requires Valid() && clock <= first <= second <= third && third != ZERO_TIME && IsFresh(s, past)
      modifies this, devices, exchanges, exchanges.native, exchanges.owned, enrollments.Values
      ensures Valid() && clock <= third
      ensures fresh(exchanges.owned - old(exchanges.owned)) && fresh(enrollments.Values - old(enrollments.Values))
      ensures GrowsBy(old(past), past, s) && OnlyAdvances(old(devices.devices), devices.devices)
      ensures Taken(crypto, devices.identify, Timed(s, first, second, third), old(Now()), Now())
    {
      hide Server.Valid, GrowsBy, OnlyAdvances, ActiveIn;
      GrowsRefl(past, s);
      AdvancesRefl(devices.devices);
      match s
      case Check(token) =>
        var r := Authenticate(token, first);
        assert r.Some? ==> sessions == old(sessions);
      case SignOut(token) =>
        DropSession(token);
    }

    method PerformRevocation(s: Step, first: int, second: int, third: int)
      requires s.Withdraw? || s.WithdrawBy?
      requires Valid() && clock <= first <= second <= third && third != ZERO_TIME && IsFresh(s, past)
      modifies this, devices, exchanges, exchanges.native, exchanges.owned, enrollments.Values
      ensures Valid() && clock <= third
      ensures fresh(exchanges.owned - old(exchanges.owned)) && fresh(enrollments.Values - old(enrollments.Values))
      ensures GrowsBy(old(past), past, s) && OnlyAdvances(old(devices.devices), devices.devices)
      ensures Taken(crypto, devices.identify, Timed(s, first, second, third), old(Now()), Now())
    {
      hide Server.Valid, GrowsBy, TakenWithdrawal, OnlyAdvances, ActiveIn;
      GrowsRefl(past, s);
      match s
      case Withdraw(id) =>
        var r := Revoke(id);
      case WithdrawBy(current, id) =>
        var r := RevokeDevice(current, id);
    }

    method PerformStop(s: Step, first: int, second: int, third: int)
      requires s.Stop?
      requires Valid() && clock <= first <= second <= third && third != ZERO_TIME && IsFresh(s, past)
      modifies this, devices, exchanges, exchanges.native, exchanges.owned, enrollments.Values
      ensures Valid() && clock <= third
      ensures fresh(exchanges.owned - old(exchanges.owned)) && fresh(enrollments.Values - old(enrollments.Values))
      ensures GrowsBy(old(past), past, s) && OnlyAdvances(old(devices.devices), devices.devices)
      ensures Taken(crypto, devices.identify, Timed(s, first, second, third), old(Now()), Now())
    {
      hide Server.Valid, GrowsBy, OnlyAdvances;
      GrowsRefl(past, s);
      AdvancesRefl(devices.devices);
      Shutdown();
    }

    /** One critical section of some request; a step on a ticket that nobody holds does nothing. */
    method Perform(s: Step, first: int, second: int, third: int)
      requires Valid() && clock <= first <= second <= third && third != ZERO_TIME && IsFresh(s, past)
      modifies this, devices, exchanges, exchanges.native, exchanges.owned, enrollments.Values
      ensures Valid() && clock <= third
      ensures fresh(exchanges.owned - old(exchanges.owned)) && fresh(enrollments.Values - old(enrollments.Values))
      ensures GrowsBy(old(past), past, s) && OnlyAdvances(old(devices.devices), devices.devices)
      ensures Taken(crypto, devices.identify, Timed(s, first, second, third), old(Now()), Now())
    {
      hide Server.Valid, Taken, GrowsBy, OnlyAdvances, Server.Now;
      match s
      case CreateCode(_, _, _) => PerformCode(s, first, second, third);
      case Start(_, _, _, _) => PerformStart(s, first, second, third);
      case Finish(_, _, _) => PerformFinish(s, first, second, third);
      case Begin(_, _, _, _) => PerformBegin(s, first, second, third);
      case Commit(_, _) => PerformCommit(s, first, second, third);
      case PasswordBegin(_, _) => PerformSignIn(s, first, second, third);
      case PasswordEnd(_, _, _) => PerformSignIn(s, first, second, third);
      case Ask(_, _) => PerformAsk(s, first, second, third);
      case Login(_, _, _, _) => PerformLogin(s, first, second, third);
      case Check(_) => PerformCheck(s, first, second, third);
      case SignOut(_) => PerformCheck(s, first, second, third);
      case Withdraw(_) => PerformRevocation(s, first, second, third);
      case WithdrawBy(_, _) => PerformRevocation(s, first, second, third);
      case Stop => PerformStop(s, first, second, third);
    }

    /**
     Any run, over any interleaving of requests: every step does what `Taken` says of it, every
     invariant holds at its end, no record is lost or restored, the history of what was spent only gets longer, and a device revoked
     before the run holds nothing after it.
     */
    method Run(steps: seq<Timed>) returns (ghost trace: seq<Moment>)
      requires Valid() && Scheduled(steps, past, clock)
      modifies this, devices, exchanges, exchanges.native, exchanges.owned, enrollments.Values
      ensures Valid() && OnlyAdvances(old(devices.devices), devices.devices) && Continues(old(past), past)
      ensures TakenAll(crypto, devices.identify, steps, trace) && trace[0] == old(Now()) && trace[|steps|] == Now()
      ensures forall id :: id in old(devices.devices) && old(devices.devices)[id].revoked && id != "" ==> Powerless(id)
    {
      hide Server.Valid, OnlyAdvances, Scheduled, Continues, Taken, Server.Now;
      trace := [Now()];
      AdvancesRefl(devices.devices);
      ContinuesRefl(past);
      for i := 0 to |steps|
        invariant Valid() && Scheduled(steps[i..], past, clock)
        invariant fresh(exchanges.owned - old(exchanges.owned)) && fresh(enrollments.Values - old(enrollments.Values))
        invariant OnlyAdvances(old(devices.devices), devices.devices) && Continues(old(past), past)
        invariant TakenAll(crypto, devices.identify, steps[..i], trace) && trace[0] == old(Now()) && trace[i] == Now()
      {
        var t := steps[i];
        ghost var was, before := past, devices.devices;
        NextStep(steps[i..], past, clock);
        assert steps[i..][0] == t && steps[i..][1..] == steps[i + 1..];
        Perform(t.step, t.first, t.second, t.third);
        StaysScheduled(steps[i..], was, past, clock);
        AdvancesTrans(old(devices.devices), before, devices.devices);
        ContinuesTrans(old(past), was, past);
        OneMoreTaken(crypto, devices.identify, steps[..i], trace, t, Now());
        assert steps[..i] + [t] == steps[..i + 1];
        trace := trace + [Now()];
      }
      assert steps[..|steps|] == steps;
      forall id | id in old(devices.devices) && old(devices.devices)[id].revoked && id != "" ensures Powerless(id) {
        StaysRevoked(old(devices.devices), devices.devices, id);
        RevokedHoldsNothing(id);
      }
    }

    /** Nothing acts for the device, and its record says so. */
    ghost predicate Powerless(id: string)
      reads this, devices
    {
      && id in devices.devices && devices.devices[id].revoked
      && (forall t :: t in sessions ==> sessions[t].device != id)
      && (forall t :: t in challenges ==> challenges[t].device != id)
      && (code.Some? ==> code.value.creator != id)
    }
  }
}
