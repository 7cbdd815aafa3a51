/** The transaction engine as a protocol of interleaved steps.

    Every API call is a client with a program counter and the rows it has written
    inside its open database transaction.  A step is one database statement or one
    local check.  Account locks and uncommitted unique keys are held until commit or
    rollback; other clients see only committed rows.  Interest runs commit without
    taking any lock. */
module Engine {
  import opened Common
  import opened Ledger

  /** The balance read when a lock was granted, and how many entries were committed then. */
  datatype Read = Read(balance: int, rows: nat)

  datatype Response = Response(txn: Txn, legs: seq<Entry>)

  datatype Outcome = Responded(response: Response) | Failed(error: Error)

  datatype PC =
    | Validating
    | CheckingKey
    | CheckingStatus(i: nat)
    | Locking(i: nat)
    | CheckingFunds
    | InsertingHeader
    | InsertingDebit
    | InsertingCredit
    | Settling
    | InsertingEvent
    | Committing
    | FetchingHeader(id: Id)
    | FetchingLegs(header: Txn)
    | Done(outcome: Outcome)

  datatype Client = Client(req: Request, pc: PC, seen: map<AccountId, Read>,
                           header: Option<Txn>, legs: seq<Entry>, events: seq<Event>)

  datatype State = State(
    db: Tables,                       // committed rows
    accounts: map<AccountId, bool>,   // account -> is it ACTIVE
    locks: map<AccountId, Id>,        // account -> client holding its row lock
    keys: map<Key, Id>,               // uncommitted idempotency key -> client that inserted it
    clients: map<Id, Client>,
    expenseSide: Side)                // side literal of the interest expense leg

  datatype Action =
    | Arrive(c: Id, req: Request)
    | Step(c: Id)
    | Abort(c: Id)
    | PostInterest(postings: seq<Posting>)
    | SetStatus(account: AccountId, active: bool)

  // ---------- Position in the protocol ----------

  function Phase(pc: PC): nat {
    match pc
    case Validating => 0
    case CheckingKey => 1
    case CheckingStatus(_) => 2
    case Locking(_) => 3
    case CheckingFunds => 4
    case InsertingHeader => 5
    case InsertingDebit => 6
    case InsertingCredit => 7
    case Settling => 8
    case InsertingEvent => 9
    case Committing => 10
    case FetchingHeader(_) => 11
    case FetchingLegs(_) => 12
    case Done(_) => 13
  }

  /** Between BEGIN and COMMIT. */
  predicate InTx(cl: Client) { 3 <= Phase(cl.pc) <= 10 }

  /** The unique key has been inserted and not yet committed. */
  predicate HoldsKey(cl: Client) { 6 <= Phase(cl.pc) <= 10 }

  /** The accounts whose lock the client has been granted. */
  function Held(cl: Client): seq<AccountId>
    requires Sane(cl)
  {
    if cl.pc.Locking? then cl.req.LockOrder()[..cl.pc.i]
    else if InTx(cl) then cl.req.LockOrder()
    else []
  }

  /** What every client's own position implies about its request. */
  predicate Sane(cl: Client) {
    && (0 < Phase(cl.pc) <= 10 ==> WellFormed(cl.req))
    && (cl.pc.CheckingStatus? ==> cl.pc.i < |cl.req.Accounts()|)
    && (cl.pc.Locking? ==> cl.pc.i < |cl.req.LockOrder()|)
  }

  function SeenBalance(cl: Client, a: AccountId): int {
    if a in cl.seen then cl.seen[a].balance else 0
  }

  // ---------- Steps of one client ----------

  predicate Unfinished(s: State, c: Id) { c in s.clients && !s.clients[c].pc.Done? }

  /** The client must wait for somebody else's lock or uncommitted key. */
  predicate Blocked(s: State, c: Id)
    requires c in s.clients && Sane(s.clients[c])
  {
    var cl := s.clients[c];
    || (cl.pc.Locking? && cl.req.LockOrder()[cl.pc.i] in s.locks)
    || (cl.pc.InsertingHeader? && cl.req.key in s.keys)
  }

  predicate CanStep(s: State, c: Id) {
    Unfinished(s, c) && Sane(s.clients[c]) && !Blocked(s, c)
  }

  /** Only client `c` is new or changed. */
  predicate OthersStay(s: State, t: State, c: Id) {
    && t.clients.Keys == s.clients.Keys + {c}
    && forall d | d in s.clients && d != c :: t.clients[d] == s.clients[d]
  }

  function Without<K>(m: map<K, Id>, c: Id): map<K, Id> {
    map k | k in m && m[k] != c :: m[k]
  }

  /** Rows, accounts and configuration are the same. */
  predicate SameWorld(s: State, t: State) {
    t.db == s.db && t.accounts == s.accounts && t.expenseSide == s.expenseSide
  }

  function Goto(s: State, c: Id, cl: Client, pc: PC): (t: State)
    ensures OthersStay(s, t, c) && SameWorld(s, t)
    ensures t.clients[c].seen == cl.seen && t.clients[c].pc == pc && t.clients[c].req == cl.req
  {
    s.(clients := s.clients[c := cl.(pc := pc)])
  }

  /** Leave the database transaction: every lock and key is given up. */
  function Release(s: State, c: Id, cl: Client, pc: PC): (t: State)
    ensures OthersStay(s, t, c) && SameWorld(s, t)
    ensures t.clients[c].seen == map[] && t.clients[c].pc == pc && t.clients[c].req == cl.req
  {
    s.(locks := Without(s.locks, c), keys := Without(s.keys, c),
       clients := s.clients[c := Client(cl.req, pc, map[], None, [], [])])
  }

  function Rollback(s: State, c: Id, cl: Client, error: Error): State {
    Release(s, c, cl, Done(Failed(error)))
  }

  function CheckRequest(s: State, c: Id, cl: Client): State {
    var error := Validate(cl.req);
    if error.Some? then Rollback(s, c, cl, error.value) else Goto(s, c, cl, CheckingKey)
  }

  function CheckKey(s: State, c: Id, cl: Client): State {
    var existing := FindKey(s.db.txns, cl.req.key);
    Goto(s, c, cl, if existing.Some? then FetchingHeader(existing.value.id) else CheckingStatus(0))
  }

  function CheckStatus(s: State, c: Id, cl: Client): State
    requires Sane(cl) && cl.pc.CheckingStatus?
  {
    var a, next := cl.req.Accounts()[cl.pc.i], cl.pc.i + 1;
    if a !in s.accounts then Rollback(s, c, cl, AccountNotFound)
    else if !s.accounts[a] then Rollback(s, c, cl, AccountNotActive)
    else Goto(s, c, cl, if next < |cl.req.Accounts()| then CheckingStatus(next) else Locking(0))
  }

  /** The lock is granted and the balance is read from the rows committed by then. */
  function GrantLock(s: State, c: Id, cl: Client): State
    requires Sane(cl) && cl.pc.Locking?
  {
    var order := cl.req.LockOrder();
    var a, next := order[cl.pc.i], cl.pc.i + 1;
    var read := Read(Balance(s.db.entries, a), |s.db.entries|);
    Goto(s.(locks := s.locks[a := c]), c, cl.(seen := cl.seen[a := read]),
         if next < |order| then Locking(next) else CheckingFunds)
  }

  function CheckFunds(s: State, c: Id, cl: Client): State
    requires cl.req.amount.Amount?
  {
    if Covered(cl.req, SeenBalance(cl, cl.req.Debited())) then Goto(s, c, cl, InsertingHeader)
    else Rollback(s, c, cl, InsufficientFunds)
  }

  function InsertHeader(s: State, c: Id, cl: Client): State {
    if KeyUsed(s.db, cl.req.key) then Rollback(s, c, cl, DatabaseError)
    else Goto(s.(keys := s.keys[cl.req.key := c]), c,
              cl.(header := Some(Header(c, cl.req, Pending))), InsertingDebit)
  }

  function InsertLeg(s: State, c: Id, cl: Client, leg: Entry, pc: PC): State {
    if Storable(leg) then Goto(s, c, cl.(legs := cl.legs + [leg]), pc)
    else Rollback(s, c, cl, DatabaseError)
  }

  function Settle(s: State, c: Id, cl: Client): State {
    var settled := if cl.header.Some? then Some(cl.header.value.(status := Settled)) else None;
    Goto(s, c, cl.(header := settled), InsertingEvent)
  }

  function InsertEvent(s: State, c: Id, cl: Client): State
    requires cl.req.amount.Amount?
  {
    Goto(s, c, cl.(events := cl.events + [SettledEvent(c, cl.req)]), Committing)
  }

  /** The rows a client has written in its transaction. */
  function CommitRows(cl: Client): Tables {
    Tables(if cl.header.Some? then [cl.header.value] else [], cl.legs, cl.events)
  }

  function Commit(s: State, c: Id, cl: Client): State {
    Release(s.(db := Append(s.db, CommitRows(cl))), c, cl, FetchingHeader(c))
  }

  function FetchHeader(s: State, c: Id, cl: Client, id: Id): State {
    var header := FindId(s.db.txns, id);
    if header.None? then Rollback(s, c, cl, DatabaseError) else Goto(s, c, cl, FetchingLegs(header.value))
  }

  function FetchLegs(s: State, c: Id, cl: Client, header: Txn): State {
    Goto(s, c, cl, Done(Responded(Response(header, LegsOf(s.db.entries, header.id)))))
  }

  function DoStep(s: State, c: Id): State
    requires CanStep(s, c)
  {
    var cl := s.clients[c];
    match cl.pc
    case Validating => CheckRequest(s, c, cl)
    case CheckingKey => CheckKey(s, c, cl)
    case CheckingStatus(_) => CheckStatus(s, c, cl)
    case Locking(_) => GrantLock(s, c, cl)
    case CheckingFunds => CheckFunds(s, c, cl)
    case InsertingHeader => InsertHeader(s, c, cl)
    case InsertingDebit =>
      InsertLeg(s, c, cl, DebitLeg(c, cl.req, SeenBalance(cl, cl.req.Debited())), InsertingCredit)
    case InsertingCredit =>
      InsertLeg(s, c, cl, CreditLeg(c, cl.req, SeenBalance(cl, cl.req.Credited())), Settling)
    case Settling => Settle(s, c, cl)
    case InsertingEvent => InsertEvent(s, c, cl)
    case Committing => Commit(s, c, cl)
    case FetchingHeader(id) => FetchHeader(s, c, cl, id)
    case FetchingLegs(header) => FetchLegs(s, c, cl, header)
  }

  // ---------- Runs ----------

  /** An interest run uses transaction ids and keys that nobody else has. */
  predicate CanPost(s: State, ps: seq<Posting>) {
    && FreshPostings(s.db, ps)
    && forall p <- ps :: p.account in s.accounts && p.id !in s.clients && p.key !in s.keys
  }

  predicate Enabled(s: State, act: Action) {
    match act
    case Arrive(c, _) => c !in s.clients && !IdUsed(s.db, c)
    case Step(c) => CanStep(s, c)
    case Abort(c) => Unfinished(s, c)
    case PostInterest(ps) => CanPost(s, ps)
    case SetStatus(a, _) => !IsInternal(a)
  }

  function Next(s: State, act: Action): State
    requires Enabled(s, act)
  {
    match act
    case Arrive(c, req) => s.(clients := s.clients[c := Client(req, Validating, map[], None, [], [])])
    case Step(c) => DoStep(s, c)
    case Abort(c) => Rollback(s, c, s.clients[c], DatabaseError)
    case PostInterest(ps) => s.(db := Append(s.db, PostingRows(ps, s.expenseSide)))
    case SetStatus(a, active) => s.(accounts := s.accounts[a := active])
  }

  predicate IsRun(s: State, acts: seq<Action>)
    decreases |acts|
  {
    acts == [] || (Enabled(s, acts[0]) && IsRun(Next(s, acts[0]), acts[1..]))
  }

  function Run(s: State, acts: seq<Action>): State
    requires IsRun(s, acts)
    decreases |acts|
  {
    if acts == [] then s else Run(Next(s, acts[0]), acts[1..])
  }

  predicate Init(s: State) {
    && s.db == EMPTY && s.locks == map[] && s.keys == map[] && s.clients == map[]
    && forall a <- s.accounts :: !IsInternal(a)
  }

  // ---------- What a run commits, in commit order ----------

  /** How far the balance a client read is behind the ledger. */
  function Lag(s: State, cl: Client, a: AccountId): nat {
    if a in cl.seen && cl.seen[a].balance < Balance(s.db.entries, a)
    then Balance(s.db.entries, a) - cl.seen[a].balance
    else 0
  }

  function Committed(s: State, act: Action): seq<Op> {
    match act
    case Step(c) =>
      if c in s.clients && s.clients[c].pc.Committing? then
        var cl := s.clients[c];
        [Serve(c, cl.req, Lag(s, cl, cl.req.Debited()), Lag(s, cl, cl.req.Credited()))]
      else []
    case PostInterest(ps) => [Post(ps, s.expenseSide)]
    case _ => []
  }

  function History(s: State, acts: seq<Action>): seq<Op>
    requires IsRun(s, acts)
    decreases |acts|
  {
    if acts == [] then [] else Committed(s, acts[0]) + History(Next(s, acts[0]), acts[1..])
  }
}
