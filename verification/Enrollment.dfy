/**
 The account kept of pairing codes: what a code has paid for, what came of it, and the
 bounds that hold at every unlock. Each lemma is one step of the protocol.
 */
module Enrollment {
  import opened Wrappers
  import opened Counting
  import opened Devices
  import opened Exchanges
  import opened Pacing

  const LIFETIME: int := 300_000_000_000        // of a code, in nanoseconds
  const EXCHANGE_LIFETIME: int := 30_000_000_000
  const MAX_TRIES: nat := 5

  /** The cryptography, as functions nothing is assumed about. */
  datatype Crypto = Crypto(
    hash: Bytes -> Bytes,
    mac: (Bytes, string, Bytes, string) -> Bytes,
    bind: (string, string, string, Bytes) -> Bytes,
    verifies: (Bytes, string, string, Bytes) -> bool,
    matches: (string, string) -> bool)

  datatype Code = Code(code: string, expires: int, attempts: nat, generation: string, creator: string)

  /** A confirmed core waiting for the account credentials; only its count of tries changes. */
  class Pending {
    const key: Bytes
    const name: string
    const generation: string
    const expires: int
    const proofHash: Bytes
    ghost const secret: Bytes   // the shared key the proof was derived from
    ghost const context: Bytes
    var attempts: nat

    constructor (key: Bytes, name: string, generation: string, expires: int, proofHash: Bytes, ghost secret: Bytes, ghost context: Bytes)
      ensures this.key == key && this.name == name && this.generation == generation && this.expires == expires
      ensures this.proofHash == proofHash && this.secret == secret && this.context == context && attempts == 0
    {
      this.key, this.name, this.generation, this.expires := key, name, generation, expires;
      this.proofHash, this.secret, this.context, attempts := proofHash, secret, context, 0;
    }
  }

  // ---- history ----

  /** An exchange: its code, its place among the code's starts, and the passwords evaluated for it. */
  datatype Account = Account(generation: string, ordinal: nat, tries: nat)

  datatype Evaluation = Evaluation(exchange: string, attempt: nat)

  /** A device added, with everything that was checked for it. */
  datatype Enrolled = Enrolled(
    generation: string, device: string, time: int, expires: int,
    secret: Bytes, context: Bytes, proof: Bytes, username: string, password: string)

  datatype Past = Past(
    generations: set<string>, accounts: map<string, Account>, evaluations: seq<Evaluation>,
    enrolled: seq<Enrolled>, lots: seq<Lot>)

  /** In time, by someone who holds the secret of a confirmed exchange and the account password. */
  ghost predicate Genuine(c: Crypto, e: Enrolled) {
    && e.time < e.expires
    && |e.proof| == KEY_SIZE && c.hash(e.proof) == c.hash(c.mac(e.secret, "enroll", e.context, e.device))
    && c.matches(e.username, e.password)
  }

  // ---- invariants ----

  ghost predicate Budget(code: Option<Code>, open: map<string, Open>, pending: map<string, Pending>) {
    match code
    case None => open == map[] && pending == map[]
    case Some(c) =>
      && |open| + |pending| <= c.attempts <= MAX_STARTS
      && (forall id :: id in open ==> open[id].generation == c.generation && open[id].expires <= c.expires)
      && (forall id :: id in pending ==> pending[id].generation == c.generation && pending[id].expires == c.expires)
  }

  ghost predicate AccountsOk(accounts: map<string, Account>, generations: set<string>) {
    && (forall id :: id in accounts ==> 1 <= accounts[id].ordinal <= MAX_STARTS && accounts[id].tries <= MAX_TRIES)
    && (forall id :: id in accounts ==> accounts[id].generation in generations)
    && (forall a, b :: a in accounts && b in accounts && a != b ==>
          accounts[a].generation != accounts[b].generation || accounts[a].ordinal != accounts[b].ordinal)
  }

  ghost predicate Booked(code: Option<Code>, open: map<string, Open>, pending: map<string, Pending>, accounts: map<string, Account>) {
    && open.Keys !! pending.Keys
    && (forall id :: id in open ==> id in accounts && accounts[id].generation == open[id].generation && accounts[id].tries == 0)
    && (forall id :: id in pending ==> id in accounts && accounts[id].generation == pending[id].generation)
    && (code.Some? ==> forall id :: id in accounts && accounts[id].generation == code.value.generation ==>
          accounts[id].ordinal <= code.value.attempts)
  }

  ghost predicate Evaluated(evaluations: seq<Evaluation>, accounts: map<string, Account>) {
    && (forall i :: 0 <= i < |evaluations| ==>
          var e := evaluations[i]; e.exchange in accounts && 1 <= e.attempt <= accounts[e.exchange].tries)
    && (forall i, j :: 0 <= i < j < |evaluations| ==> evaluations[i] != evaluations[j])
  }

  /** Each code added one device at most, and the code that did is gone. */
  ghost predicate Spent(c: Crypto, code: Option<Code>, enrolled: seq<Enrolled>, generations: set<string>) {
    && (forall i :: 0 <= i < |enrolled| ==> Genuine(c, enrolled[i]) && enrolled[i].generation in generations)
    && (forall i, j :: 0 <= i < j < |enrolled| ==> enrolled[i].generation != enrolled[j].generation)
    && (code.Some? ==> code.value.generation in generations)
    && (code.Some? ==> forall i :: 0 <= i < |enrolled| ==> enrolled[i].generation != code.value.generation)
  }

  ghost predicate Clocked(code: Option<Code>, lastCode: Option<int>, lots: seq<Lot>, clock: int) {
    && Paced(lots, clock)
    && lastCode == (if lots == [] then None else Some(lots[|lots| - 1].created))
    && (code.Some? ==> lots != [])
    && (code.Some? ==> |lots[|lots| - 1].starts| == code.value.attempts)
    && (code.Some? ==> code.value.expires == lots[|lots| - 1].created + LIFETIME)
  }

  ghost predicate Ledger(c: Crypto, code: Option<Code>, lastCode: Option<int>, open: map<string, Open>,
                         pending: map<string, Pending>, past: Past, clock: int) {
    && Budget(code, open, pending)
    && AccountsOk(past.accounts, past.generations)
    && Booked(code, open, pending, past.accounts)
    && Evaluated(past.evaluations, past.accounts)
    && Spent(c, code, past.enrolled, past.generations)
    && Clocked(code, lastCode, past.lots, clock)
  }

  // ---- steps ----

  lemma LedgerLater(c: Crypto, code: Option<Code>, lastCode: Option<int>, open: map<string, Open>,
                    pending: map<string, Pending>, past: Past, clock: int, later: int)
    requires Ledger(c, code, lastCode, open, pending, past, clock) && clock <= later
    ensures Ledger(c, code, lastCode, open, pending, past, later)
  {
    hide Budget, AccountsOk, Booked, Evaluated, Spent;
    PacedLater(past.lots, clock, later);
  }

  ghost predicate SubMap<T>(small: map<string, T>, large: map<string, T>) {
    forall id :: id in small ==> id in large && small[id] == large[id]
  }

  lemma SubMapIsSmaller<T>(small: map<string, T>, large: map<string, T>)
    requires SubMap(small, large)
    ensures |small| <= |large|
  {
    SubsetIsSmaller(small.Keys, large.Keys);
    assert |small| == |small.Keys| && |large| == |large.Keys|;
  }

  /** Exchanges and enrollments may be forgotten at any time. */
  lemma Forget(c: Crypto, code: Option<Code>, lastCode: Option<int>, open: map<string, Open>, pending: map<string, Pending>,
               past: Past, clock: int, open': map<string, Open>, pending': map<string, Pending>)
    requires Ledger(c, code, lastCode, open, pending, past, clock)
    requires SubMap(open', open) && SubMap(pending', pending)
    ensures Ledger(c, code, lastCode, open', pending', past, clock)
  {
    hide AccountsOk, Evaluated, Spent, Clocked;
    SubMapIsSmaller(open', open);
    SubMapIsSmaller(pending', pending);
  }

  lemma EmptyLedger(c: Crypto)
    ensures Ledger(c, None, None, map[], map[], Past({}, map[], [], [], []), 0)
  {
  }

  /** Without a code nothing is open. */
  lemma DropCode(c: Crypto, code: Option<Code>, lastCode: Option<int>, open: map<string, Open>, pending: map<string, Pending>,
                 past: Past, clock: int)
    requires Ledger(c, code, lastCode, open, pending, past, clock)
    ensures Ledger(c, None, lastCode, map[], map[], past, clock)
  {
    hide AccountsOk, Evaluated, Paced, Genuine;
  }

  lemma NewCode(c: Crypto, code: Option<Code>, lastCode: Option<int>, open: map<string, Open>, pending: map<string, Pending>,
                past: Past, clock: int, next: Code)
    requires Ledger(c, code, lastCode, open, pending, past, clock)
    requires lastCode.None? || clock - lastCode.value >= CODE_GAP
    requires next.generation !in past.generations && next.attempts == 0 && next.expires == clock + LIFETIME
    ensures Ledger(c, Some(next), Some(clock), map[], map[], Created(past, next.generation, clock), clock)
  {
    hide Budget, AccountsOk, Booked, Evaluated, Spent, Paced;
    PacedCode(past.lots, clock);
    NewGeneration(c, code, open, pending, past, next);
  }

  function Created(past: Past, generation: string, clock: int): Past {
    past.(generations := past.generations + {generation}, lots := past.lots + [Lot(clock, [])])
  }

  lemma NewGeneration(c: Crypto, code: Option<Code>, open: map<string, Open>, pending: map<string, Pending>, past: Past, next: Code)
    requires AccountsOk(past.accounts, past.generations) && Booked(code, open, pending, past.accounts)
    requires Spent(c, code, past.enrolled, past.generations)
    requires next.generation !in past.generations && next.attempts == 0
    ensures var generations := past.generations + {next.generation};
      && Budget(Some(next), map[], map[]) && AccountsOk(past.accounts, generations)
      && Booked(Some(next), map[], map[], past.accounts) && Spent(c, Some(next), past.enrolled, generations)
  {
    hide Genuine;
  }

  /** A start is paid for whether or not the exchange opens. */
  lemma PayStart(c: Crypto, code: Code, lastCode: Option<int>, open: map<string, Open>, pending: map<string, Pending>,
                 past: Past, clock: int, id: string)
    requires Ledger(c, Some(code), lastCode, open, pending, past, clock)
    requires code.attempts < MAX_STARTS && id !in past.accounts
    ensures Ledger(c, Some(code.(attempts := code.attempts + 1)), lastCode, open, pending, Paid(past, code, id, clock), clock)
    ensures |open| + |pending| <= code.attempts && id !in open && id !in pending
  {
    hide Paced, Genuine;
    PacedStart(past.lots, clock);
    PayAccount(code, open, pending, past, id);
  }

  function Paid(past: Past, code: Code, id: string, clock: int): Past {
    past.(accounts := past.accounts[id := Account(code.generation, code.attempts + 1, 0)],
          lots := WithStart(past.lots, clock))
  }

  lemma PayAccount(code: Code, open: map<string, Open>, pending: map<string, Pending>, past: Past, id: string)
    requires AccountsOk(past.accounts, past.generations) && Booked(Some(code), open, pending, past.accounts)
    requires Evaluated(past.evaluations, past.accounts)
    requires code.attempts < MAX_STARTS && id !in past.accounts && code.generation in past.generations
    ensures var after := past.accounts[id := Account(code.generation, code.attempts + 1, 0)];
      && AccountsOk(after, past.generations) && Evaluated(past.evaluations, after)
      && Booked(Some(code.(attempts := code.attempts + 1)), open, pending, after)
  {
  }

  /** The exchange a start paid for. */
  lemma OpenPaid(c: Crypto, code: Code, lastCode: Option<int>, open: map<string, Open>, pending: map<string, Pending>,
                 past: Past, clock: int, id: string, entry: Open)
    requires Ledger(c, Some(code), lastCode, open, pending, past, clock)
    requires |open| + |pending| < code.attempts && id !in open && id !in pending
    requires id in past.accounts && past.accounts[id].generation == code.generation && past.accounts[id].tries == 0
    requires entry.generation == code.generation && entry.expires <= code.expires
    ensures Ledger(c, Some(code), lastCode, open[id := entry], pending, past, clock)
  {
    hide AccountsOk, Evaluated, Spent, Clocked;
  }

  /** An exchange becomes a pending enrollment. */
  lemma Confirm(c: Crypto, code: Code, lastCode: Option<int>, open: map<string, Open>, pending: map<string, Pending>,
                past: Past, clock: int, id: string, p: Pending)
    requires Ledger(c, Some(code), lastCode, open, pending, past, clock) && id in open
    requires p.generation == code.generation && p.expires == code.expires
    ensures Ledger(c, Some(code), lastCode, open - {id}, pending[id := p], past, clock)
    ensures id in past.accounts && past.accounts[id].tries == 0
  {
    hide AccountsOk, Evaluated, Spent, Clocked;
    assert (open - {id}).Keys == open.Keys - {id};
    assert |open - {id}| == |(open - {id}).Keys| && |open| == |open.Keys|;
    assert |pending[id := p]| == |pending| + 1;
  }

  function Tried(past: Past, id: string): Past
    requires id in past.accounts
  {
    var a := past.accounts[id];
    past.(accounts := past.accounts[id := a.(tries := a.tries + 1)],
          evaluations := past.evaluations + [Evaluation(id, a.tries + 1)])
  }

  /** A password is about to be evaluated for a pending enrollment. */
  lemma Try(c: Crypto, code: Code, lastCode: Option<int>, open: map<string, Open>, pending: map<string, Pending>,
            past: Past, clock: int, id: string)
    requires Ledger(c, Some(code), lastCode, open, pending, past, clock) && id in pending
    requires id in past.accounts && past.accounts[id].tries < MAX_TRIES
    ensures Ledger(c, Some(code), lastCode, open, pending, Tried(past, id), clock)
  {
    hide Budget, Spent, Clocked, AccountsOk, Booked, Evaluated;
    TryEvaluated(past, id);
    TryAccounts(past, id);
    TryBooked(code, open, pending, past, id);
  }

  lemma TryAccounts(past: Past, id: string)
    requires AccountsOk(past.accounts, past.generations) && id in past.accounts && past.accounts[id].tries < MAX_TRIES
    ensures AccountsOk(Tried(past, id).accounts, past.generations)
  {
  }

  lemma TryBooked(code: Code, open: map<string, Open>, pending: map<string, Pending>, past: Past, id: string)
    requires Booked(Some(code), open, pending, past.accounts) && id in pending && id in past.accounts
    ensures Booked(Some(code), open, pending, Tried(past, id).accounts)
  {
    assert forall k :: k in open ==> k != id;
  }

  lemma TryEvaluated(past: Past, id: string)
    requires id in past.accounts && Evaluated(past.evaluations, past.accounts)
    ensures Evaluated(Tried(past, id).evaluations, Tried(past, id).accounts)
  {
    var evaluations, after := past.evaluations, Tried(past, id).evaluations;
    forall i | 0 <= i < |evaluations| ensures after[i] != after[|evaluations|] {
      assert after[i] == evaluations[i];
    }
  }

  /** A device is added, and its code is spent. */
  lemma Enroll(c: Crypto, code: Code, lastCode: Option<int>, open: map<string, Open>, pending: map<string, Pending>,
               past: Past, clock: int, e: Enrolled)
    requires Ledger(c, Some(code), lastCode, open, pending, past, clock)
    requires Genuine(c, e) && e.generation == code.generation
    ensures Ledger(c, None, lastCode, map[], map[], past.(enrolled := past.enrolled + [e]), clock)
  {
    hide AccountsOk, Evaluated, Paced, Genuine;
  }

  // ---- what the ledger bounds ----

  ghost function Additions(enrolled: seq<Enrolled>, generation: string): set<nat> {
    set i: nat | i < |enrolled| && enrolled[i].generation == generation
  }

  /** No code adds two devices. */
  lemma AdditionsPerCode(c: Crypto, code: Option<Code>, lastCode: Option<int>, open: map<string, Open>,
                         pending: map<string, Pending>, past: Past, clock: int, generation: string)
    requires Ledger(c, code, lastCode, open, pending, past, clock)
    ensures |Additions(past.enrolled, generation)| <= 1
  {
    hide Budget, AccountsOk, Booked, Evaluated, Clocked, Genuine;
    var s := Additions(past.enrolled, generation);
    if s != {} {
      var i :| i in s;
      assert s == {i};
    }
  }

  ghost function EvaluationsFor(past: Past, generation: string): set<nat> {
    set i: nat | i < |past.evaluations| && Serves(past, past.evaluations[i], generation)
  }

  ghost predicate Serves(past: Past, e: Evaluation, generation: string) {
    e.exchange in past.accounts && past.accounts[e.exchange].generation == generation
  }

  /** At most 25 passwords are evaluated on the strength of one code, over its whole life. */
  lemma PasswordsPerCode(c: Crypto, code: Option<Code>, lastCode: Option<int>, open: map<string, Open>,
                         pending: map<string, Pending>, past: Past, clock: int, generation: string)
    requires Ledger(c, code, lastCode, open, pending, past, clock)
    ensures |EvaluationsFor(past, generation)| <= 25
  {
    hide Budget, Booked, Spent, Clocked;
    var cells := map i | i in EvaluationsFor(past, generation) :: Cell(past, i);
    CellsApart(past, generation, cells);
    SameSize(cells, Grid(1, 5));
  }

  function Cell(past: Past, i: nat): (nat, nat)
    requires i < |past.evaluations| && past.evaluations[i].exchange in past.accounts && 1 <= past.evaluations[i].attempt
  {
    var e := past.evaluations[i];
    (past.accounts[e.exchange].ordinal, e.attempt - 1)
  }

  lemma CellsApart(past: Past, generation: string, cells: map<nat, (nat, nat)>)
    requires AccountsOk(past.accounts, past.generations) && Evaluated(past.evaluations, past.accounts)
    requires cells.Keys == EvaluationsFor(past, generation) && forall i :: i in cells ==> cells[i] == Cell(past, i)
    ensures forall i, j :: i in cells && j in cells && i != j ==> cells[i] != cells[j]
    ensures forall i :: i in cells ==> cells[i] in Grid(1, 5)
  {
    forall i, j | i in cells && j in cells && i != j ensures cells[i] != cells[j] {
      var a, b := past.evaluations[i], past.evaluations[j];
      assert a != b;
    }
  }

  lemma {:induction false} SameSize(f: map<nat, (nat, nat)>, room: set<(nat, nat)>)
    requires forall a, b :: a in f && b in f && a != b ==> f[a] != f[b]
    requires forall a :: a in f ==> f[a] in room
    ensures |f.Keys| <= |room|
    decreases |f.Keys|
  {
    if f.Keys != {} {
      var a :| a in f.Keys;
      var g := f - {a};
      assert g.Keys == f.Keys - {a};
      SameSize(g, room - {f[a]});
    }
  }
}
