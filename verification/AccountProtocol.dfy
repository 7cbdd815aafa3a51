/** Account lifecycle and the read-through cache as interleaved steps.

    Freezing and closing lock the account row from the read to the commit, bump its version
    and write one outbox event; the cache entry is deleted after the commit.  Readers fill
    the cache on a miss, with the fetch and the store as separate steps.  The clock counts
    actions; it is there only to say what happened before what. */
module AccountProtocol {
  import opened Common

  type ClientId = nat

  /** What never changes about an account; the limit is in units of 0.0001. */
  datatype Details = Details(customer: string, accountType: string, currency: string, dailyLimit: int)

  datatype Row = Row(details: Details, standing: Standing, version: nat)

  datatype EventKind = Created | WasFrozen | WasClosed

  datatype Event = Event(kind: EventKind, account: AccountId)

  datatype Task = Create(details: Details) | Freeze | Close | Get

  datatype Failure = InvalidInput | NotFound | NotActive | NonZeroBalance | VersionConflict | DatabaseError

  /** A commit of a new version of the account, and when its cache entry was deleted. */
  datatype Commit = Commit(version: nat, at: nat)

  datatype PC =
    | CheckingBalance
    | Locking
    | Updating(read: Row)
    | InsertingRow
    | InsertingEvent(staged: Row)
    | Committing(staged: Row, event: Event)
    | DeletingCache(commit: Commit)
    | Cleared(commit: Commit, deletedAt: nat)
    | ReadingCache
    | Fetching
    | Storing(fetched: Row, fetchedAt: nat)
    | Answered(row: Row, rowFetchedAt: nat)
    | Finished
    | Failed(reason: Failure)

  datatype Client = Client(task: Task, account: AccountId, pc: PC)

  datatype Cached = Cached(row: Row, fetchedAt: nat, storedAt: nat)

  datatype State = State(rows: map<AccountId, Row>, outbox: seq<Event>, locks: map<AccountId, ClientId>,
                         cache: map<AccountId, Cached>, clients: map<ClientId, Client>, clock: nat,
                         changed: map<AccountId, nat>)   // when each account was last committed

  /** `ok` is the outcome of what the step cannot decide: whether the balance is zero, whether
      a cache operation succeeds, whether a cache read returns. */
  datatype Action =
    | Arrive(c: ClientId, task: Task, account: AccountId)
    | Step(c: ClientId, ok: bool)
    | Abort(c: ClientId)
    | Expire(account: AccountId)

  function StartOf(task: Task): PC {
    match task
    case Create(_) => InsertingRow
    case Freeze => Locking
    case Close => CheckingBalance
    case Get => ReadingCache
  }

  predicate Done(pc: PC) { pc.Cleared? || pc.Answered? || pc.Finished? || pc.Failed? }

  /** The row lock is held from the read to the commit. */
  predicate HoldsLock(cl: Client) {
    (cl.task.Freeze? || cl.task.Close?) && (cl.pc.Updating? || cl.pc.InsertingEvent? || cl.pc.Committing?)
  }

  predicate Blocked(s: State, cl: Client) { cl.pc.Locking? && cl.account in s.locks }

  function Target(task: Task): Standing { if task.Freeze? then Frozen else if task.Close? then Closed else Active }

  function EventOf(cl: Client): Event {
    Event(if cl.task.Freeze? then WasFrozen else if cl.task.Close? then WasClosed else Created, cl.account)
  }

  function Unlock(locks: map<AccountId, ClientId>, c: ClientId): map<AccountId, ClientId> {
    map a | a in locks && locks[a] != c :: locks[a]
  }

  predicate SameTables(s: State, t: State) {
    t.rows == s.rows && t.outbox == s.outbox && t.cache == s.cache && t.clock == s.clock && t.changed == s.changed
  }

  function Goto(s: State, c: ClientId, cl: Client, pc: PC): (t: State)
    ensures c in t.clients && t.clients[c] == cl.(pc := pc)
    ensures SameTables(s, t)
  {
    s.(clients := s.clients[c := cl.(pc := pc)])
  }

  function Fail(s: State, c: ClientId, cl: Client, reason: Failure): (t: State)
    ensures c in t.clients && t.clients[c] == cl.(pc := Failed(reason))
    ensures SameTables(s, t)
  {
    Goto(s.(locks := Unlock(s.locks, c)), c, cl, Failed(reason))
  }

  /** SELECT ... FOR UPDATE of the account row. */
  function LockRow(s: State, c: ClientId, cl: Client): State {
    if cl.account !in s.rows then Fail(s, c, cl, NotFound)
    else Goto(s.(locks := s.locks[cl.account := c]), c, cl, Updating(s.rows[cl.account]))
  }

  /** The status check of a freeze, then UPDATE ... WHERE version = the version read. */
  function UpdateRow(s: State, c: ClientId, cl: Client, read: Row): State {
    if cl.task.Freeze? && read.standing != Active then Fail(s, c, cl, NotActive)
    else if cl.account !in s.rows || s.rows[cl.account].version != read.version then Fail(s, c, cl, VersionConflict)
    else
      var current := s.rows[cl.account];
      Goto(s, c, cl, InsertingEvent(current.(standing := Target(cl.task), version := current.version + 1)))
  }

  function CommitRow(s: State, c: ClientId, cl: Client, staged: Row, event: Event): State {
    var t := s.(rows := s.rows[cl.account := staged], outbox := s.outbox + [event], locks := Unlock(s.locks, c),
                changed := s.changed[cl.account := s.clock]);
    Goto(t, c, cl, if cl.task.Create? then Finished else DeletingCache(Commit(staged.version, s.clock)))
  }

  /** A cached row is answered as it is. */
  function Hit(cached: Cached): PC { Answered(cached.row, cached.fetchedAt) }

  function DoStep(s: State, c: ClientId, cl: Client, ok: bool): State {
    match cl.pc
    case CheckingBalance => if ok then Goto(s, c, cl, Locking) else Fail(s, c, cl, NonZeroBalance)
    case Locking => LockRow(s, c, cl)
    case Updating(read) => UpdateRow(s, c, cl, read)
    case InsertingRow =>
      if cl.task.Create? then Goto(s, c, cl, InsertingEvent(Row(cl.task.details, Active, 1))) else s
    case InsertingEvent(staged) => Goto(s, c, cl, Committing(staged, EventOf(cl)))
    case Committing(staged, event) => CommitRow(s, c, cl, staged, event)
    case DeletingCache(commit) =>
      if ok then Goto(s.(cache := s.cache - {cl.account}), c, cl, Cleared(commit, s.clock))
      else Goto(s, c, cl, Finished)
    case ReadingCache =>
      Goto(s, c, cl, if ok && cl.account in s.cache then Hit(s.cache[cl.account]) else Fetching)
    case Fetching =>
      if cl.account !in s.rows then Fail(s, c, cl, NotFound)
      else Goto(s, c, cl, Storing(s.rows[cl.account], s.clock))
    case Storing(fetched, at) =>
      var t := if ok then s.(cache := s.cache[cl.account := Cached(fetched, at, s.clock)]) else s;
      Goto(t, c, cl, Answered(fetched, at))
    case _ => s
  }

  /** A new account has an id that no row and no other client's new account has. */
  predicate FreshAccount(s: State, a: AccountId) {
    a !in s.rows && forall c | c in s.clients :: !(s.clients[c].task.Create? && s.clients[c].account == a)
  }

  predicate Enabled(s: State, act: Action) {
    match act
    case Arrive(c, task, a) => c !in s.clients && (task.Create? ==> FreshAccount(s, a))
    case Step(c, _) => c in s.clients && !Done(s.clients[c].pc) && !Blocked(s, s.clients[c])
    case Abort(c) => c in s.clients && !Done(s.clients[c].pc)
    case Expire(_) => true
  }

  function Next(s: State, act: Action): State
    requires Enabled(s, act)
  {
    var t :=
      match act
      case Arrive(c, task, a) => s.(clients := s.clients[c := Client(task, a, StartOf(task))])
      case Step(c, ok) => DoStep(s, c, s.clients[c], ok)
      case Abort(c) => Fail(s, c, s.clients[c], DatabaseError)
      case Expire(a) => s.(cache := s.cache - {a});
    t.(clock := s.clock + 1)
  }

  predicate IsRun(s: State, acts: seq<Action>)
    decreases |acts|
  {
    acts == [] || (Enabled(s, acts[0]) && IsRun(Next(s, acts[0]), acts[1..]))
  }

  function Run(s: State, acts: seq<Action>): State
    requires IsRun(s, acts)
    decreases |acts|
  {
    if acts == [] then s else Run(Next(s, acts[0]), acts[1..])
  }

  const START := State(map[], [], map[], map[], map[], 0, map[])

  // ---------- Invariants ----------

  /** Lifecycle events of one account. */
  function EventCount(outbox: seq<Event>, a: AccountId): nat {
    if outbox == [] then 0
    else EventCount(outbox[..|outbox| - 1], a) + (if outbox[|outbox| - 1].account == a then 1 else 0)
  }

  /** `row` is a row the account has had: not newer than the current one, and the current one
      if it has the same version. */
  predicate OnceTrue(s: State, a: AccountId, row: Row) {
    a in s.rows && row.version <= s.rows[a].version && (row.version == s.rows[a].version ==> row == s.rows[a])
  }

  /** The row a transaction is about to commit follows the committed one. */
  predicate StagedOk(s: State, cl: Client, staged: Row) {
    if cl.task.Create? then cl.account !in s.rows && staged == Row(cl.task.details, Active, 1)
    else
      && (cl.task.Freeze? || cl.task.Close?) && cl.account in s.rows
      && staged == s.rows[cl.account].(standing := Target(cl.task), version := s.rows[cl.account].version + 1)
      && (cl.task.Freeze? ==> s.rows[cl.account].standing == Active)
  }

  predicate CommitOk(s: State, a: AccountId, commit: Commit) {
    a in s.rows && commit.version <= s.rows[a].version && commit.at < s.clock
  }

  predicate ClientOk(s: State, c: ClientId, cl: Client) {
    && (HoldsLock(cl) <==> cl.account in s.locks && s.locks[cl.account] == c)
    && match cl.pc
       case CheckingBalance => cl.task.Close?
       case Locking => cl.task.Freeze? || cl.task.Close?
       case Updating(read) => (cl.task.Freeze? || cl.task.Close?) && cl.account in s.rows && read == s.rows[cl.account]
       case InsertingRow => cl.task.Create? && cl.account !in s.rows
       case InsertingEvent(staged) => StagedOk(s, cl, staged)
       case Committing(staged, event) => StagedOk(s, cl, staged) && event == EventOf(cl)
       case DeletingCache(commit) => CommitOk(s, cl.account, commit)
       case Cleared(commit, deletedAt) => CommitOk(s, cl.account, commit) && commit.at < deletedAt < s.clock
       case ReadingCache => cl.task.Get?
       case Fetching => cl.task.Get?
       case Storing(fetched, at) => cl.task.Get? && OnceTrue(s, cl.account, fetched) && at < s.clock
       case Answered(row, at) => cl.task.Get? && OnceTrue(s, cl.account, row) && at < s.clock
       case Failed(reason) => reason != VersionConflict
       case _ => true
  }

  predicate RowsOk(s: State) {
    && (forall a | a in s.rows :: s.rows[a].version == EventCount(s.outbox, a))
    && (forall e <- s.outbox :: e.account in s.rows)
    && (forall a | a in s.cache :: OnceTrue(s, a, s.cache[a].row)
                                   && s.cache[a].fetchedAt < s.clock && s.cache[a].storedAt < s.clock)
  }

  /** A lock belongs to a client that works on that account. */
  predicate LocksOk(s: State) {
    forall a | a in s.locks :: s.locks[a] in s.clients && s.clients[s.locks[a]].account == a
  }

  /** Different clients create different accounts. */
  predicate CreatesOk(s: State) {
    forall c, d | c in s.clients && d in s.clients && c != d && s.clients[c].task.Create? && s.clients[d].task.Create? ::
      s.clients[c].account != s.clients[d].account
  }

  predicate Inv(s: State) {
    && RowsOk(s) && LocksOk(s) && CreatesOk(s)
    && forall c | c in s.clients :: ClientOk(s, c, s.clients[c])
  }

  // ---------- Frames ----------

  lemma {:induction false} EventCountAppend(outbox: seq<Event>, e: Event, a: AccountId)
    ensures EventCount(outbox + [e], a) == EventCount(outbox, a) + (if e.account == a then 1 else 0)
  {
    assert (outbox + [e])[..|outbox|] == outbox;
  }

  lemma {:induction false} NoEvents(outbox: seq<Event>, a: AccountId)
    requires forall e <- outbox :: e.account != a
    ensures EventCount(outbox, a) == 0
  {
    if outbox != [] { NoEvents(outbox[..|outbox| - 1], a); }
  }

  /** Nothing that client `d` relies on has changed. */
  lemma {:induction false} OtherClientOk(s: State, t: State, d: ClientId, cl: Client)
    requires ClientOk(s, d, cl) && t.clock > s.clock
    requires (cl.account in t.locks && t.locks[cl.account] == d) <==> (cl.account in s.locks && s.locks[cl.account] == d)
    requires cl.account in s.rows ==> cl.account in t.rows
    requires cl.account in s.rows && (t.rows[cl.account] != s.rows[cl.account]) ==>
               !HoldsLock(cl) && t.rows[cl.account].version > s.rows[cl.account].version
    requires cl.task.Create? && cl.account !in s.rows ==> cl.account !in t.rows
    ensures ClientOk(t, d, cl)
  {
  }

  // ---------- The moving client ----------

  function Tick(s: State): State { s.(clock := s.clock + 1) }

  /** Client `c` is as it should be after its step. */
  predicate Moved(t: State, c: ClientId) { c in t.clients && ClientOk(Tick(t), c, t.clients[c]) }

  lemma {:induction false} FailOk(s: State, c: ClientId, cl: Client, reason: Failure)
    requires ClientOk(s, c, cl) && reason != VersionConflict
    ensures Moved(Fail(s, c, cl, reason), c)
  {
    hide EventCount;
  }

  lemma {:induction false} LockRowOk(s: State, c: ClientId, cl: Client)
    requires ClientOk(s, c, cl) && cl.pc.Locking? && cl.account !in s.locks
    ensures Moved(LockRow(s, c, cl), c)
  {
    if cl.account !in s.rows { FailOk(s, c, cl, NotFound); }
    hide Unlock;
  }

  /** The version read under the lock is still the row's version: no conflict. */
  lemma {:induction false} UpdateRowOk(s: State, c: ClientId, cl: Client)
    requires ClientOk(s, c, cl) && cl.pc.Updating?
    ensures Moved(UpdateRow(s, c, cl, cl.pc.read), c)
    ensures UpdateRow(s, c, cl, cl.pc.read).clients[c].pc != Failed(VersionConflict)
  {
    if cl.task.Freeze? && cl.pc.read.standing != Active { FailOk(s, c, cl, NotActive); }
    hide Unlock;
  }

  lemma {:induction false} WriterStepOk(s: State, c: ClientId, cl: Client, ok: bool)
    requires ClientOk(s, c, cl) && !Blocked(s, cl)
    requires cl.pc.CheckingBalance? || cl.pc.Locking? || cl.pc.Updating? || cl.pc.InsertingRow?
          || cl.pc.InsertingEvent? || cl.pc.DeletingCache?
    ensures Moved(DoStep(s, c, cl, ok), c)
  {
    match cl.pc
    case CheckingBalance => if !ok { FailOk(s, c, cl, NonZeroBalance); }
    case Locking => LockRowOk(s, c, cl);
    case Updating(_) => UpdateRowOk(s, c, cl);
    case _ => hide LockRow, UpdateRow, Unlock;
  }

  lemma {:induction false} ReaderStepOk(s: State, c: ClientId, cl: Client, ok: bool)
    requires ClientOk(s, c, cl) && RowsOk(s) && (cl.pc.ReadingCache? || cl.pc.Fetching? || cl.pc.Storing?)
    ensures Moved(DoStep(s, c, cl, ok), c)
  {
    hide LockRow, UpdateRow, CommitRow, EventCount;
    if cl.pc.Fetching? && cl.account !in s.rows { FailOk(s, c, cl, NotFound); }
    hide Unlock;
  }

  lemma {:induction false} CommitOwnOk(s: State, c: ClientId, cl: Client)
    requires ClientOk(s, c, cl) && cl.pc.Committing?
    ensures Moved(CommitRow(s, c, cl, cl.pc.staged, cl.pc.event), c)
  {
  }

  lemma {:induction false} StepOk(s: State, c: ClientId, cl: Client, ok: bool)
    requires ClientOk(s, c, cl) && RowsOk(s) && !Blocked(s, cl) && !Done(cl.pc)
    ensures Moved(DoStep(s, c, cl, ok), c)
  {
    if cl.pc.Committing? {
      CommitOwnOk(s, c, cl);
    } else if cl.pc.ReadingCache? || cl.pc.Fetching? || cl.pc.Storing? {
      ReaderStepOk(s, c, cl, ok);
    } else {
      WriterStepOk(s, c, cl, ok);
    }
    hide Moved, ClientOk, RowsOk, LockRow, UpdateRow, CommitRow, Goto;
  }

  // ---------- What a step leaves alone ----------

  /** Only client `c` moved, and only locks of `c` changed. */
  predicate Framed(s: State, t: State, c: ClientId)
    requires c in s.clients
  {
    && t.clients.Keys == s.clients.Keys
    && (forall d | d in s.clients && d != c :: t.clients[d] == s.clients[d])
    && t.clients[c].task == s.clients[c].task && t.clients[c].account == s.clients[c].account
    && (forall a | a in s.locks && s.locks[a] != c :: a in t.locks && t.locks[a] == s.locks[a])
    && (forall a | a in t.locks && t.locks[a] != c :: a in s.locks && t.locks[a] == s.locks[a])
    && (forall a | a in t.locks && t.locks[a] == c :: (a in s.locks && s.locks[a] == c) || a == s.clients[c].account)
  }

  lemma {:induction false} FailFramed(s: State, c: ClientId, reason: Failure)
    requires c in s.clients
    ensures Framed(s, Fail(s, c, s.clients[c], reason), c)
  {
  }

  lemma {:induction false} LockRowFramed(s: State, c: ClientId)
    requires c in s.clients && s.clients[c].account !in s.locks
    ensures Framed(s, LockRow(s, c, s.clients[c]), c)
  {
    FailFramed(s, c, NotFound);
    hide Fail;
  }

  lemma {:induction false} UpdateRowFramed(s: State, c: ClientId, read: Row)
    requires c in s.clients
    ensures Framed(s, UpdateRow(s, c, s.clients[c], read), c)
  {
    FailFramed(s, c, NotActive);
    FailFramed(s, c, VersionConflict);
    hide Fail;
  }

  lemma {:induction false} CommitRowFramed(s: State, c: ClientId, staged: Row, event: Event)
    requires c in s.clients
    ensures Framed(s, CommitRow(s, c, s.clients[c], staged, event), c)
  {
  }

  lemma {:induction false} WriterFramed(s: State, c: ClientId, ok: bool)
    requires c in s.clients && !Blocked(s, s.clients[c])
    requires s.clients[c].pc.Locking? || s.clients[c].pc.Updating? || s.clients[c].pc.Committing?
    ensures Framed(s, DoStep(s, c, s.clients[c], ok), c)
  {
    hide Fail, LockRow, UpdateRow, CommitRow, Framed, Goto;
    match s.clients[c].pc
    case Locking => LockRowFramed(s, c);
    case Updating(read) => UpdateRowFramed(s, c, read);
    case Committing(staged, event) => CommitRowFramed(s, c, staged, event);
    case _ =>
  }

  lemma {:induction false} GotoFramed(s: State, t: State, c: ClientId, pc: PC)
    requires c in s.clients && t.clients == s.clients && t.locks == s.locks
    ensures Framed(s, Goto(t, c, s.clients[c], pc), c)
  {
  }

  lemma {:induction false} ReaderFramed(s: State, c: ClientId, ok: bool)
    requires c in s.clients
    requires s.clients[c].pc.DeletingCache? || s.clients[c].pc.ReadingCache?
          || s.clients[c].pc.Fetching? || s.clients[c].pc.Storing?
    ensures Framed(s, DoStep(s, c, s.clients[c], ok), c)
  {
    hide Fail, Framed, Goto, LockRow, UpdateRow, CommitRow;
    var cl := s.clients[c];
    match cl.pc
    case DeletingCache(commit) =>
      GotoFramed(s, s.(cache := s.cache - {cl.account}), c, Cleared(commit, s.clock));
      GotoFramed(s, s, c, Finished);
    case ReadingCache =>
      GotoFramed(s, s, c, if ok && cl.account in s.cache then Hit(s.cache[cl.account]) else Fetching);
    case Fetching =>
      FailFramed(s, c, NotFound);
      if cl.account in s.rows { GotoFramed(s, s, c, Storing(s.rows[cl.account], s.clock)); }
    case Storing(fetched, at) =>
      GotoFramed(s, s.(cache := s.cache[cl.account := Cached(fetched, at, s.clock)]), c, Answered(fetched, at));
      GotoFramed(s, s, c, Answered(fetched, at));
    case _ =>
  }

  lemma {:induction false} StepFramed(s: State, c: ClientId, ok: bool)
    requires c in s.clients && !Blocked(s, s.clients[c])
    ensures Framed(s, DoStep(s, c, s.clients[c], ok), c)
  {
    hide Fail, Goto, LockRow, UpdateRow, CommitRow, Blocked;
    var cl := s.clients[c];
    if cl.pc.Locking? || cl.pc.Updating? || cl.pc.Committing? {
      WriterFramed(s, c, ok);
    } else if cl.pc.DeletingCache? || cl.pc.ReadingCache? || cl.pc.Fetching? || cl.pc.Storing? {
      ReaderFramed(s, c, ok);
    } else if cl.pc.CheckingBalance? {
      GotoFramed(s, s, c, Locking);
      FailFramed(s, c, NonZeroBalance);
    } else if cl.pc.InsertingRow? && cl.task.Create? {
      GotoFramed(s, s, c, InsertingEvent(Row(cl.task.details, Active, 1)));
    } else if cl.pc.InsertingEvent? {
      GotoFramed(s, s, c, Committing(cl.pc.staged, EventOf(cl)));
    }
  }

  /** Rows change only by a commit, and then only the committed one, to a newer version. */
  lemma {:induction false} StepRows(s: State, c: ClientId, cl: Client, ok: bool)
    requires ClientOk(s, c, cl)
    ensures var t := DoStep(s, c, cl, ok);
            && t.clock == s.clock
            && (!cl.pc.Committing? ==> t.rows == s.rows && t.outbox == s.outbox)
            && (cl.pc.Committing? ==> t.rows == s.rows[cl.account := cl.pc.staged]
                                      && t.outbox == s.outbox + [EventOf(cl)] && t.cache == s.cache)
  {
    hide StagedOk, CommitOk, OnceTrue, HoldsLock, DoStep;
    if cl.pc.Locking? || cl.pc.Updating? || cl.pc.Committing? {
      WriterRows(s, c, cl, ok);
    } else {
      OtherRows(s, c, cl, ok);
    }
  }

  lemma {:induction false} OtherRows(s: State, c: ClientId, cl: Client, ok: bool)
    requires !cl.pc.Locking? && !cl.pc.Updating? && !cl.pc.Committing?
    ensures var t := DoStep(s, c, cl, ok); t.clock == s.clock && t.rows == s.rows && t.outbox == s.outbox
  {
    hide Fail, Goto, Unlock, LockRow, UpdateRow, CommitRow, EventOf;
  }

  lemma {:induction false} WriterRows(s: State, c: ClientId, cl: Client, ok: bool)
    requires cl.pc.Locking? || cl.pc.Updating? || (cl.pc.Committing? && cl.pc.event == EventOf(cl))
    ensures var t := DoStep(s, c, cl, ok);
            && t.clock == s.clock
            && (!cl.pc.Committing? ==> t.rows == s.rows && t.outbox == s.outbox)
            && (cl.pc.Committing? ==> t.rows == s.rows[cl.account := cl.pc.staged]
                                      && t.outbox == s.outbox + [EventOf(cl)] && t.cache == s.cache)
  {
    hide Fail, Goto, Unlock;
  }

  /** The cache changes by a delete, or by storing a fetched row. */
  lemma {:induction false} StepCache(s: State, c: ClientId, cl: Client, ok: bool)
    requires ClientOk(s, c, cl)
    ensures var t := DoStep(s, c, cl, ok);
            forall a | a in t.cache ::
              || (a in s.cache && t.cache[a] == s.cache[a] && !(cl.pc.DeletingCache? && ok && a == cl.account))
              || (a == cl.account && cl.pc.Storing? && t.cache[a] == Cached(cl.pc.fetched, cl.pc.fetchedAt, s.clock))
  {
    hide Fail, Goto, Unlock, StagedOk, CommitOk, OnceTrue, HoldsLock;
  }

  // ---------- The invariant is kept ----------

  lemma {:induction false} OtherKept(s: State, c: ClientId, ok: bool, d: ClientId)
    requires c in s.clients && d in s.clients && c != d && Enabled(s, Step(c, ok)) && CreatesOk(s)
    requires ClientOk(s, c, s.clients[c]) && ClientOk(s, d, s.clients[d])
    ensures d in Next(s, Step(c, ok)).clients && ClientOk(Next(s, Step(c, ok)), d, Next(s, Step(c, ok)).clients[d])
  {
    hide DoStep, Blocked, ClientOk, Framed, CreatesOk, LeavesAlone;
    StepFramed(s, c, ok);
    StepRows(s, c, s.clients[c], ok);
    if s.clients[c].pc.Committing? { CommitLeaves(s, c, d); }
    OtherStays(s, DoStep(s, c, s.clients[c], ok), c, d);
  }

  /** Making `row` the row of account `a` does not disturb client `cl`. */
  predicate LeavesAlone(s: State, a: AccountId, row: Row, cl: Client) {
    && (a in s.rows ==> row.version > s.rows[a].version)
    && (cl.account == a ==> if a in s.rows then !HoldsLock(cl) else !cl.task.Create?)
  }

  /** The row about to be committed is locked by its client, or new, and it is a newer version. */
  lemma {:induction false} CommitLeaves(s: State, c: ClientId, d: ClientId)
    requires c in s.clients && d in s.clients && c != d && CreatesOk(s) && s.clients[c].pc.Committing?
    requires ClientOk(s, c, s.clients[c]) && ClientOk(s, d, s.clients[d])
    ensures LeavesAlone(s, s.clients[c].account, s.clients[c].pc.staged, s.clients[d])
  {
    hide OnceTrue, CommitOk, EventCount;
  }

  lemma {:induction false} OtherStays(s: State, t: State, c: ClientId, d: ClientId)
    requires c in s.clients && d in s.clients && c != d && Framed(s, t, c) && t.clock == s.clock
    requires ClientOk(s, d, s.clients[d])
    requires if s.clients[c].pc.Committing?
             then t.rows == s.rows[s.clients[c].account := s.clients[c].pc.staged]
                  && LeavesAlone(s, s.clients[c].account, s.clients[c].pc.staged, s.clients[d])
             else t.rows == s.rows
    ensures d in t.clients && t.clients[d] == s.clients[d] && ClientOk(Tick(t), d, s.clients[d])
  {
    hide ClientOk, EventCount;
    OtherClientOk(s, Tick(t), d, s.clients[d]);
  }

  lemma {:induction false} OthersKept(s: State, c: ClientId, ok: bool)
    requires Inv(s) && Enabled(s, Step(c, ok))
    ensures var t := Next(s, Step(c, ok)); forall d | d in t.clients && d != c :: ClientOk(t, d, t.clients[d])
  {
    hide DoStep, RowsOk, ClientOk, CreatesOk, LocksOk, Blocked;
    StepFramed(s, c, ok);
    var t := Next(s, Step(c, ok));
    forall d | d in t.clients && d != c ensures ClientOk(t, d, t.clients[d]) { OtherKept(s, c, ok, d); }
  }

  /** A committed row is the account's next version, or its first. */
  lemma {:induction false} CommitVersion(s: State, c: ClientId)
    requires RowsOk(s) && c in s.clients && ClientOk(s, c, s.clients[c]) && s.clients[c].pc.Committing?
    ensures s.clients[c].pc.staged.version == EventCount(s.outbox, s.clients[c].account) + 1
  {
    hide EventCount;
    if s.clients[c].account !in s.rows { NoEvents(s.outbox, s.clients[c].account); }
  }

  lemma {:induction false} VersionsKept(s: State, c: ClientId, ok: bool)
    requires RowsOk(s) && Enabled(s, Step(c, ok)) && ClientOk(s, c, s.clients[c]) && s.clients[c].pc.Committing?
    ensures var t := Next(s, Step(c, ok));
            && (forall a | a in t.rows :: t.rows[a].version == EventCount(t.outbox, a))
            && (forall e <- t.outbox :: e.account in t.rows)
  {
    hide DoStep, EventCount, ClientOk;
    var cl, t := s.clients[c], Next(s, Step(c, ok));
    StepRows(s, c, cl, ok);
    CommitVersion(s, c);
    forall a | a in t.rows ensures t.rows[a].version == EventCount(t.outbox, a) {
      EventCountAppend(s.outbox, EventOf(cl), a);
    }
  }

  lemma {:induction false} CacheKept(s: State, c: ClientId, ok: bool)
    requires Inv(s) && Enabled(s, Step(c, ok))
    ensures var t := Next(s, Step(c, ok));
            forall a | a in t.cache :: OnceTrue(t, a, t.cache[a].row)
                                       && t.cache[a].fetchedAt < t.clock && t.cache[a].storedAt < t.clock
  {
    var cl := s.clients[c];
    assert ClientOk(s, c, cl);
    StepRows(s, c, cl, ok);
    StepCache(s, c, cl, ok);
    hide DoStep, EventCount, LocksOk, CreatesOk;
  }

  lemma {:induction false} RowsKept(s: State, c: ClientId, ok: bool)
    requires Inv(s) && Enabled(s, Step(c, ok))
    ensures RowsOk(Next(s, Step(c, ok)))
  {
    CacheKept(s, c, ok);
    if s.clients[c].pc.Committing? {
      VersionsKept(s, c, ok);
    } else {
      assert ClientOk(s, c, s.clients[c]);
      StepRows(s, c, s.clients[c], ok);
    }
    hide DoStep, EventCount, LocksOk, CreatesOk, ClientOk, OnceTrue;
  }

  lemma {:induction false} LocksKept(s: State, c: ClientId, ok: bool)
    requires Inv(s) && Enabled(s, Step(c, ok))
    ensures var t := Next(s, Step(c, ok)); LocksOk(t) && CreatesOk(t)
  {
    StepFramed(s, c, ok);
    hide DoStep, RowsOk, ClientOk;
    var t := Next(s, Step(c, ok));
    forall a | a in t.locks ensures t.locks[a] in t.clients && t.clients[t.locks[a]].account == a {
      if t.locks[a] == c { assert t.clients[c].account == s.clients[c].account; }
    }
    forall d | d in t.clients
      ensures t.clients[d].task == s.clients[d].task && t.clients[d].account == s.clients[d].account
    {
    }
  }

  lemma {:induction false} StepKeeps(s: State, c: ClientId, ok: bool)
    requires Inv(s) && Enabled(s, Step(c, ok))
    ensures Inv(Next(s, Step(c, ok)))
  {
    hide RowsOk, LocksOk, CreatesOk, ClientOk, DoStep;
    StepOk(s, c, s.clients[c], ok);
    StepRows(s, c, s.clients[c], ok);
    OthersKept(s, c, ok);
    RowsKept(s, c, ok);
    LocksKept(s, c, ok);
  }

  lemma {:induction false} AbortRows(s: State, c: ClientId)
    requires RowsOk(s) && Enabled(s, Abort(c))
    ensures RowsOk(Next(s, Abort(c)))
  {
    hide EventCount;
    var t := Next(s, Abort(c));
    assert t.rows == s.rows && t.outbox == s.outbox && t.cache == s.cache;
    forall a | a in t.cache ensures OnceTrue(t, a, t.cache[a].row) { assert OnceTrue(s, a, s.cache[a].row); }
  }

  lemma {:induction false} AbortLocks(s: State, c: ClientId)
    requires LocksOk(s) && CreatesOk(s) && Enabled(s, Abort(c))
    ensures LocksOk(Next(s, Abort(c))) && CreatesOk(Next(s, Abort(c)))
  {
    var t := Next(s, Abort(c));
    forall d | d in t.clients
      ensures d in s.clients && t.clients[d].task == s.clients[d].task && t.clients[d].account == s.clients[d].account
    {
    }
    assert forall a | a in t.locks :: a in s.locks && t.locks[a] == s.locks[a];
  }

  lemma {:induction false} AbortClients(s: State, c: ClientId)
    requires Inv(s) && Enabled(s, Abort(c))
    ensures forall d | d in Next(s, Abort(c)).clients :: ClientOk(Next(s, Abort(c)), d, Next(s, Abort(c)).clients[d])
  {
    var t := Next(s, Abort(c));
    assert ClientOk(s, c, s.clients[c]);
    FailOk(s, c, s.clients[c], DatabaseError);
    FailFramed(s, c, DatabaseError);
    assert t == Tick(Fail(s, c, s.clients[c], DatabaseError));
    hide EventCount, RowsOk, LocksOk, CreatesOk;
    forall d | d in t.clients ensures ClientOk(t, d, t.clients[d]) {
      if d != c {
        assert ClientOk(s, d, s.clients[d]);
        OtherClientOk(s, t, d, s.clients[d]);
      }
    }
  }

  lemma {:induction false} AbortKeeps(s: State, c: ClientId)
    requires Inv(s) && Enabled(s, Abort(c))
    ensures Inv(Next(s, Abort(c)))
  {
    hide RowsOk, LocksOk, CreatesOk, ClientOk, Fail;
    AbortRows(s, c);
    AbortLocks(s, c);
    AbortClients(s, c);
  }

  lemma {:induction false} NextKeeps(s: State, act: Action)
    requires Inv(s) && Enabled(s, act)
    ensures Inv(Next(s, act))
  {
    match act
    case Step(c, ok) => StepKeeps(s, c, ok);
    case Abort(c) => AbortKeeps(s, c);
    case Arrive(c, task, a) =>
      var t := Next(s, act);
      hide EventCount;
      forall d | d in t.clients ensures ClientOk(t, d, t.clients[d]) {
        if d != c { OtherClientOk(s, t, d, s.clients[d]); }
      }
    case Expire(a) =>
      var t := Next(s, act);
      hide EventCount;
      forall d | d in t.clients ensures ClientOk(t, d, t.clients[d]) {
        OtherClientOk(s, t, d, s.clients[d]);
      }
  }

  lemma {:induction false} RunKeeps(s: State, acts: seq<Action>)
    requires Inv(s) && IsRun(s, acts)
    ensures Inv(Run(s, acts))
    decreases |acts|
  {
    hide Inv, Next, Enabled;
    if acts != [] {
      NextKeeps(s, acts[0]);
      RunKeeps(Next(s, acts[0]), acts[1..]);
    }
  }

  // ---------- Lifecycle ----------

  /** In every reachable state an account's version is the number of its lifecycle events. */
  lemma {:induction false} VersionCountsEvents(acts: seq<Action>, a: AccountId)
    requires IsRun(START, acts)
    ensures var s := Run(START, acts);
            if a in s.rows then s.rows[a].version == EventCount(s.outbox, a) else EventCount(s.outbox, a) == 0
  {
    RunKeeps(START, acts);
    var s := Run(START, acts);
    if a !in s.rows { NoEvents(s.outbox, a); }
  }

  /** The version check never fails: the row lock spans the read and the update. */
  lemma {:induction false} NoVersionConflict(acts: seq<Action>, c: ClientId)
    requires IsRun(START, acts) && c in Run(START, acts).clients
    ensures Run(START, acts).clients[c].pc != Failed(VersionConflict)
  {
    RunKeeps(START, acts);
    assert ClientOk(Run(START, acts), c, Run(START, acts).clients[c]);
  }

  predicate ClosedNow(s: State, a: AccountId) { a in s.rows && s.rows[a].standing == Closed }

  lemma {:induction false} NextKeepsClosed(s: State, act: Action, a: AccountId)
    requires Inv(s) && Enabled(s, act) && ClosedNow(s, a)
    ensures ClosedNow(Next(s, act), a)
  {
    if act.Step? {
      assert ClientOk(s, act.c, s.clients[act.c]);
      StepRows(s, act.c, s.clients[act.c], act.ok);
      hide DoStep, RowsOk, LocksOk, CreatesOk;
    }
  }

  /** Closed is never left. */
  lemma {:induction false} ClosedForGood(s: State, acts: seq<Action>, a: AccountId)
    requires Inv(s) && IsRun(s, acts) && ClosedNow(s, a)
    ensures ClosedNow(Run(s, acts), a)
    decreases |acts|
  {
    hide Inv, Next, Enabled, ClosedNow;
    if acts != [] {
      NextKeeps(s, acts[0]);
      NextKeepsClosed(s, acts[0], a);
      ClosedForGood(Next(s, acts[0]), acts[1..], a);
    }
  }

  // ---------- Cache against table ----------

  /** A cached row is never newer than the table's, and equal versions mean equal rows. */
  lemma {:induction false} CacheNeverAhead(acts: seq<Action>, a: AccountId)
    requires IsRun(START, acts) && a in Run(START, acts).cache
    ensures OnceTrue(Run(START, acts), a, Run(START, acts).cache[a].row)
  {
    RunKeeps(START, acts);
  }

  /** A row is older than a committed version exactly if it was fetched before that commit. */
  predicate FetchedBefore(row: Row, fetchedAt: nat, commit: Commit) {
    row.version < commit.version <==> fetchedAt < commit.at
  }

  /** What the commit of one client says about everything fetched and cached of its account. */
  predicate CommitSeen(s: State, a: AccountId, commit: Commit) {
    && (a in s.cache ==> FetchedBefore(s.cache[a].row, s.cache[a].fetchedAt, commit))
    && (forall c | c in s.clients && s.clients[c].account == a && s.clients[c].pc.Storing? ::
          FetchedBefore(s.clients[c].pc.fetched, s.clients[c].pc.fetchedAt, commit))
  }

  predicate History(s: State, c: ClientId)
    requires c in s.clients
  {
    var cl := s.clients[c];
    match cl.pc
    case DeletingCache(commit) => CommitSeen(s, cl.account, commit)
    case Cleared(commit, deletedAt) =>
      CommitSeen(s, cl.account, commit) && (cl.account in s.cache ==> s.cache[cl.account].storedAt > deletedAt)
    case _ => true
  }

  predicate HistoryOk(s: State) { forall c | c in s.clients :: History(s, c) }

  lemma {:induction false} CommitSeenCache(s: State, c: ClientId, ok: bool, a: AccountId, commit: Commit)
    requires c in s.clients && ClientOk(s, c, s.clients[c]) && CommitSeen(s, a, commit)
    ensures var t := DoStep(s, c, s.clients[c], ok);
            a in t.cache ==> FetchedBefore(t.cache[a].row, t.cache[a].fetchedAt, commit)
  {
    hide DoStep, ClientOk, FetchedBefore;
    StepCache(s, c, s.clients[c], ok);
  }

  lemma {:induction false} CommitSeenClients(s: State, c: ClientId, ok: bool, a: AccountId, commit: Commit)
    requires c in s.clients && ClientOk(s, c, s.clients[c]) && !Done(s.clients[c].pc) && !Blocked(s, s.clients[c])
    requires CommitOk(s, a, commit) && CommitSeen(s, a, commit)
    ensures var t := DoStep(s, c, s.clients[c], ok);
            forall d | d in t.clients && t.clients[d].account == a && t.clients[d].pc.Storing? ::
              FetchedBefore(t.clients[d].pc.fetched, t.clients[d].pc.fetchedAt, commit)
  {
    hide DoStep, ClientOk, Blocked;
    StepFramed(s, c, ok);
    StepFetch(s, c, s.clients[c], ok);
  }

  /** A step keeps what is known about commits already made. */
  lemma {:induction false} CommitSeenKept(s: State, c: ClientId, ok: bool, a: AccountId, commit: Commit)
    requires Inv(s) && Enabled(s, Step(c, ok)) && CommitOk(s, a, commit) && CommitSeen(s, a, commit)
    ensures CommitSeen(Next(s, Step(c, ok)), a, commit)
  {
    assert ClientOk(s, c, s.clients[c]);
    hide DoStep, Inv, ClientOk, CommitOk, FetchedBefore, Blocked;
    CommitSeenCache(s, c, ok, a, commit);
    CommitSeenClients(s, c, ok, a, commit);
  }

  /** Where the moving client stands after its step, if it matters to the cache: a row being
      stored was fetched by this step from the table. */
  predicate FetchedNow(s: State, cl: Client, ok: bool, pc: PC) {
    match pc
    case Storing(row, at) => cl.pc.Fetching? && cl.account in s.rows && row == s.rows[cl.account] && at == s.clock
    case DeletingCache(commit) => cl.pc.Committing? && commit == Commit(cl.pc.staged.version, s.clock)
    case Cleared(commit, at) => cl.pc.DeletingCache? && ok && commit == cl.pc.commit && at == s.clock
    case Answered(row, at) =>
      || (cl.pc.ReadingCache? && cl.account in s.cache && row == s.cache[cl.account].row && at == s.cache[cl.account].fetchedAt)
      || (cl.pc.Storing? && row == cl.pc.fetched && at == cl.pc.fetchedAt)
    case _ => true
  }

  lemma {:induction false} WriterFetch(s: State, c: ClientId, cl: Client, ok: bool)
    requires cl.pc.Locking? || cl.pc.Updating? || cl.pc.Committing?
    ensures var t := DoStep(s, c, cl, ok); c in t.clients && FetchedNow(s, cl, ok, t.clients[c].pc)
  {
    hide Fail, Unlock, Goto;
  }

  lemma {:induction false} StepFetch(s: State, c: ClientId, cl: Client, ok: bool)
    requires !Done(cl.pc) && ClientOk(s, c, cl)
    ensures var t := DoStep(s, c, cl, ok); c in t.clients && FetchedNow(s, cl, ok, t.clients[c].pc)
  {
    if cl.pc.Locking? || cl.pc.Updating? || cl.pc.Committing? {
      WriterFetch(s, c, cl, ok);
    } else {
      hide Fail, Unlock, Goto, LockRow, UpdateRow, CommitRow;
    }
    hide DoStep, FetchedNow;
  }

  lemma {:induction false} HistoryKept(s: State, c: ClientId, ok: bool)
    requires Inv(s) && Enabled(s, Step(c, ok)) && HistoryOk(s)
    ensures HistoryOk(Next(s, Step(c, ok)))
  {
    var cl, t := s.clients[c], Next(s, Step(c, ok));
    StepFramed(s, c, ok);
    StepFetch(s, c, cl, ok);
    hide DoStep, CommitSeen, RowsOk, LocksOk, CreatesOk;
    forall d | d in t.clients ensures History(t, d) {
      assert ClientOk(s, d, s.clients[d]) && History(s, d);
      assert ClientOk(s, c, cl);
      if d != c {
        OldHistory(s, c, ok, d);
      } else if t.clients[c].pc == cl.pc {
        OldHistory(s, c, ok, c);
      } else {
        NewHistory(s, c, ok);
      }
    }
  }

  /** Commits made before this step. */
  lemma {:induction false} OldHistory(s: State, c: ClientId, ok: bool, d: ClientId)
    requires Inv(s) && Enabled(s, Step(c, ok)) && d in s.clients && History(s, d)
    requires var t := Next(s, Step(c, ok)); d in t.clients && t.clients[d] == s.clients[d]
    ensures History(Next(s, Step(c, ok)), d)
  {
    var cl := s.clients[d];
    assert ClientOk(s, d, cl) && ClientOk(s, c, s.clients[c]);
    if cl.pc.DeletingCache? || cl.pc.Cleared? {
      CommitSeenKept(s, c, ok, cl.account, cl.pc.commit);
      StepCache(s, c, s.clients[c], ok);
    }
    hide DoStep, CommitSeen, Inv;
  }

  /** Everything fetched so far is older than the version committed by this step. */
  lemma {:induction false} CommitMade(s: State, c: ClientId, ok: bool)
    requires Inv(s) && Enabled(s, Step(c, ok)) && s.clients[c].pc.Committing?
    ensures CommitSeen(Next(s, Step(c, ok)), s.clients[c].account, Commit(s.clients[c].pc.staged.version, s.clock))
  {
    hide DoStep, LocksOk, CreatesOk, EventCount;
    var cl, t := s.clients[c], Next(s, Step(c, ok));
    assert ClientOk(s, c, cl);
    StepFetch(s, c, cl, ok);
    StepFramed(s, c, ok);
    StepCache(s, c, cl, ok);
    forall d | d in t.clients && t.clients[d].account == cl.account && t.clients[d].pc.Storing?
      ensures FetchedBefore(t.clients[d].pc.fetched, t.clients[d].pc.fetchedAt, Commit(cl.pc.staged.version, s.clock))
    {
      assert d != c && ClientOk(s, d, s.clients[d]);
    }
  }

  /** A commit made by this step, or a cache entry deleted by it. */
  lemma {:induction false} NewHistory(s: State, c: ClientId, ok: bool)
    requires Inv(s) && Enabled(s, Step(c, ok)) && History(s, c)
    requires var t := Next(s, Step(c, ok)); c in t.clients && t.clients[c].pc != s.clients[c].pc
    ensures History(Next(s, Step(c, ok)), c)
  {
    hide DoStep, LocksOk, CreatesOk, EventCount, CommitSeen, RowsOk;
    var cl := s.clients[c];
    assert ClientOk(s, c, cl);
    StepFetch(s, c, cl, ok);
    StepFramed(s, c, ok);
    StepCache(s, c, cl, ok);
    if cl.pc.Committing? {
      CommitMade(s, c, ok);
    } else if cl.pc.DeletingCache? {
      CommitSeenKept(s, c, ok, cl.account, cl.pc.commit);
    }
  }

  predicate InCache(pc: PC) { pc.Storing? || pc.DeletingCache? || pc.Cleared? || pc.Answered? }

  /** Arriving, failing and expiring fetch nothing, commit nothing and store nothing. */
  lemma {:induction false} IdleKeepsHistory(s: State, t: State)
    requires HistoryOk(s) && forall a | a in t.cache :: a in s.cache && t.cache[a] == s.cache[a]
    requires forall c | c in t.clients && InCache(t.clients[c].pc) :: c in s.clients && s.clients[c] == t.clients[c]
    ensures HistoryOk(t)
  {
    forall c | c in t.clients ensures History(t, c) {
      if InCache(t.clients[c].pc) { assert History(s, c); }
    }
  }

  lemma {:induction false} NextKeepsHistory(s: State, act: Action)
    requires Inv(s) && Enabled(s, act) && HistoryOk(s)
    ensures HistoryOk(Next(s, act))
  {
    hide HistoryOk, Inv, DoStep, Unlock;
    if act.Step? { HistoryKept(s, act.c, act.ok); } else { IdleKeepsHistory(s, Next(s, act)); }
  }

  lemma {:induction false} RunKeepsHistory(s: State, acts: seq<Action>)
    requires Inv(s) && IsRun(s, acts) && HistoryOk(s)
    ensures HistoryOk(Run(s, acts))
    decreases |acts|
  {
    hide Inv, Next, Enabled, HistoryOk;
    if acts != [] {
      NextKeeps(s, acts[0]);
      NextKeepsHistory(s, acts[0]);
      RunKeepsHistory(Next(s, acts[0]), acts[1..]);
    }
  }

  lemma {:induction false} StartOk()
    ensures Inv(START) && HistoryOk(START) && CopiesOk(START)
  {
  }

  /** What survives a delete.  Once a client has committed a version and deleted the cache
      entry, an entry found in the cache was stored after the delete, and it is older than the
      commit exactly if the reader had fetched it before the commit.  An entry fetched after
      the newest commit is the table's row. */
  lemma {:induction false} StaleIff(acts: seq<Action>, c: ClientId)
    requires IsRun(START, acts) && c in Run(START, acts).clients && Run(START, acts).clients[c].pc.Cleared?
    ensures var s := Run(START, acts);
            var a, commit := s.clients[c].account, s.clients[c].pc.commit;
            a in s.cache ==>
              && a in s.rows && s.cache[a].storedAt > s.clients[c].pc.deletedAt > commit.at
              && (s.cache[a].row.version < commit.version <==> s.cache[a].fetchedAt < commit.at)
              && (s.cache[a].fetchedAt > commit.at && s.rows[a].version == commit.version ==> s.cache[a].row == s.rows[a])
  {
    hide Next, Enabled, IsRun, Run, EventCount, LocksOk, CreatesOk;
    StartOk();
    RunKeeps(START, acts);
    RunKeepsHistory(START, acts);
    var s := Run(START, acts);
    assert ClientOk(s, c, s.clients[c]) && History(s, c);
  }

  // ---------- Every copy of a row, failed deletes included ----------

  /** A copy of the account's row is the current row exactly if it was fetched after the last
      commit of the account. */
  predicate CopyOk(s: State, a: AccountId, row: Row, fetchedAt: nat) {
    && a in s.rows && a in s.changed && row.version <= s.rows[a].version
    && (row == s.rows[a] <==> fetchedAt > s.changed[a])
  }

  predicate ChangedOk(s: State) { forall a | a in s.rows :: a in s.changed && s.changed[a] < s.clock }

  predicate CacheCopiesOk(s: State) { forall a | a in s.cache :: CopyOk(s, a, s.cache[a].row, s.cache[a].fetchedAt) }

  /** What a reader is about to store, or has been told. */
  predicate ReaderOk(s: State, cl: Client) {
    match cl.pc
    case Storing(row, at) => CopyOk(s, cl.account, row, at)
    case Answered(row, at) => CopyOk(s, cl.account, row, at)
    case _ => true
  }

  predicate ReaderCopiesOk(s: State) { forall c | c in s.clients :: ReaderOk(s, s.clients[c]) }

  predicate CopiesOk(s: State) { ChangedOk(s) && CacheCopiesOk(s) && ReaderCopiesOk(s) }

  lemma {:induction false} StepChanged(s: State, c: ClientId, cl: Client, ok: bool)
    ensures DoStep(s, c, cl, ok).changed == if cl.pc.Committing? then s.changed[cl.account := s.clock] else s.changed
  {
    hide DoStep;
    if cl.pc.Locking? || cl.pc.Updating? || cl.pc.Committing? {
      WriterChanged(s, c, cl, ok);
    } else {
      OtherChanged(s, c, cl, ok);
    }
  }

  lemma {:induction false} OtherChanged(s: State, c: ClientId, cl: Client, ok: bool)
    requires !cl.pc.Locking? && !cl.pc.Updating? && !cl.pc.Committing?
    ensures DoStep(s, c, cl, ok).changed == s.changed
  {
    hide Fail, Goto, Unlock, LockRow, UpdateRow, CommitRow, EventOf;
  }

  lemma {:induction false} WriterChanged(s: State, c: ClientId, cl: Client, ok: bool)
    requires cl.pc.Locking? || cl.pc.Updating? || cl.pc.Committing?
    ensures DoStep(s, c, cl, ok).changed == if cl.pc.Committing? then s.changed[cl.account := s.clock] else s.changed
  {
    hide Fail, Goto, Unlock;
  }

  /** A copy stays right: a commit of its account makes it out of date, and nothing else
      concerns it. */
  lemma {:induction false} CopyStays(s: State, c: ClientId, ok: bool, a: AccountId, row: Row, fetchedAt: nat)
    requires c in s.clients && ClientOk(s, c, s.clients[c]) && CopyOk(s, a, row, fetchedAt) && fetchedAt < s.clock
    ensures CopyOk(DoStep(s, c, s.clients[c], ok), a, row, fetchedAt)
  {
    hide DoStep, EventCount, HoldsLock;
    StepRows(s, c, s.clients[c], ok);
    StepChanged(s, c, s.clients[c], ok);
  }

  lemma {:induction false} CacheCopiesKept(s: State, c: ClientId, ok: bool)
    requires Inv(s) && CopiesOk(s) && Enabled(s, Step(c, ok))
    ensures CacheCopiesOk(DoStep(s, c, s.clients[c], ok))
  {
    var cl, t := s.clients[c], DoStep(s, c, s.clients[c], ok);
    assert ClientOk(s, c, cl);
    StepCache(s, c, cl, ok);
    assert cl.pc.Storing? ==> cl.pc.fetchedAt < s.clock;
    hide DoStep, LocksOk, CreatesOk, ClientOk, EventCount, CopyOk;
    forall a | a in t.cache ensures CopyOk(t, a, t.cache[a].row, t.cache[a].fetchedAt) {
      CopyStays(s, c, ok, a, t.cache[a].row, t.cache[a].fetchedAt);
    }
  }

  /** A row just fetched is the current one, and a row answered is the cached or fetched one. */
  lemma {:induction false} MovedReaderOk(s: State, c: ClientId, ok: bool)
    requires Enabled(s, Step(c, ok)) && ClientOk(s, c, s.clients[c]) && ChangedOk(s)
    requires CacheCopiesOk(s) && ReaderOk(s, s.clients[c])
    ensures var t := DoStep(s, c, s.clients[c], ok);
            c in t.clients && t.clients[c].account == s.clients[c].account && ReaderOk(t, t.clients[c])
  {
    hide DoStep, ClientOk, Blocked;
    var cl := s.clients[c];
    StepFetch(s, c, cl, ok);
    StepRows(s, c, cl, ok);
    StepChanged(s, c, cl, ok);
    StepAccount(s, c, cl, ok);
  }

  lemma {:induction false} StepAccount(s: State, c: ClientId, cl: Client, ok: bool)
    requires !Done(cl.pc) && ClientOk(s, c, cl)
    ensures c in DoStep(s, c, cl, ok).clients && DoStep(s, c, cl, ok).clients[c].account == cl.account
  {
    hide Fail, Goto, Unlock, StagedOk, CommitOk, OnceTrue, HoldsLock;
  }

  /** A reader that does not move. */
  lemma {:induction false} WaitingReaderOk(s: State, c: ClientId, ok: bool, d: ClientId)
    requires Enabled(s, Step(c, ok)) && d in s.clients && ReaderOk(s, s.clients[d])
    requires ClientOk(s, c, s.clients[c]) && ClientOk(s, d, s.clients[d])
    ensures ReaderOk(DoStep(s, c, s.clients[c], ok), s.clients[d])
  {
    hide DoStep, CopyOk, OnceTrue, HoldsLock, StagedOk, CommitOk, Blocked;
    match s.clients[d].pc
    case Storing(row, at) => CopyStays(s, c, ok, s.clients[d].account, row, at);
    case Answered(row, at) => CopyStays(s, c, ok, s.clients[d].account, row, at);
    case _ =>
  }

  lemma {:induction false} ReaderCopiesKept(s: State, c: ClientId, ok: bool)
    requires Inv(s) && CopiesOk(s) && Enabled(s, Step(c, ok))
    ensures ReaderCopiesOk(DoStep(s, c, s.clients[c], ok))
  {
    assert ChangedOk(s) && CacheCopiesOk(s) && ReaderCopiesOk(s);
    hide DoStep, RowsOk, LocksOk, CreatesOk, ClientOk, ReaderOk, ChangedOk, CacheCopiesOk, Blocked;
    var t := DoStep(s, c, s.clients[c], ok);
    StepFramed(s, c, ok);
    assert c in s.clients && ClientOk(s, c, s.clients[c]) && ReaderOk(s, s.clients[c]);
    forall d | d in t.clients ensures ReaderOk(t, t.clients[d]) {
      assert ClientOk(s, d, s.clients[d]) && ReaderOk(s, s.clients[d]);
      if d == c { MovedReaderOk(s, c, ok); } else { WaitingReaderOk(s, c, ok, d); }
    }
  }

  lemma {:induction false} ChangedKept(s: State, c: ClientId, ok: bool)
    requires Enabled(s, Step(c, ok)) && ClientOk(s, c, s.clients[c]) && ChangedOk(s)
    ensures ChangedOk(Next(s, Step(c, ok)))
  {
    hide DoStep, ClientOk;
    StepRows(s, c, s.clients[c], ok);
    StepChanged(s, c, s.clients[c], ok);
  }

  /** Arriving, failing and expiring change no row and make no copy. */
  lemma {:induction false} IdleKeepsCopies(s: State, t: State)
    requires CopiesOk(s) && t.rows == s.rows && t.changed == s.changed && t.clock >= s.clock
    requires forall a | a in t.cache :: a in s.cache && t.cache[a] == s.cache[a]
    requires forall c | c in t.clients && InCache(t.clients[c].pc) :: c in s.clients && s.clients[c] == t.clients[c]
    ensures CopiesOk(t)
  {
  }

  lemma {:induction false} NextKeepsCopies(s: State, act: Action)
    requires Inv(s) && Enabled(s, act) && CopiesOk(s)
    ensures CopiesOk(Next(s, act))
  {
    if act.Step? {
      assert ClientOk(s, act.c, s.clients[act.c]);
      hide Inv, ChangedOk, CacheCopiesOk, ReaderCopiesOk, ClientOk;
      ChangedKept(s, act.c, act.ok);
      CacheCopiesKept(s, act.c, act.ok);
      ReaderCopiesKept(s, act.c, act.ok);
      TickKeepsCopies(DoStep(s, act.c, s.clients[act.c], act.ok), Next(s, act));
    } else {
      hide CopiesOk, Inv, DoStep, Unlock;
      IdleKeepsCopies(s, Next(s, act));
    }
  }

  lemma {:induction false} TickKeepsCopies(s: State, t: State)
    requires t == s.(clock := t.clock)
    ensures CacheCopiesOk(s) ==> CacheCopiesOk(t)
    ensures ReaderCopiesOk(s) ==> ReaderCopiesOk(t)
  {
  }

  lemma {:induction false} RunKeepsCopies(s: State, acts: seq<Action>)
    requires Inv(s) && IsRun(s, acts) && CopiesOk(s)
    ensures CopiesOk(Run(s, acts))
    decreases |acts|
  {
    hide Inv, Next, Enabled, CopiesOk;
    if acts != [] {
      NextKeeps(s, acts[0]);
      NextKeepsCopies(s, acts[0]);
      RunKeepsCopies(Next(s, acts[0]), acts[1..]);
    }
  }

  /** In every reachable state, whatever deletes succeeded or failed, a cached row is the
      table's row exactly if it was fetched after the last commit of its account. */
  lemma {:induction false} CurrentIff(acts: seq<Action>, a: AccountId)
    requires IsRun(START, acts) && a in Run(START, acts).cache
    ensures var s := Run(START, acts);
            && a in s.rows && a in s.changed
            && (s.cache[a].row == s.rows[a] <==> s.cache[a].fetchedAt > s.changed[a])
  {
    StartOk();
    RunKeepsCopies(START, acts);
  }

  /** In every reachable state a reader has been told a row that its account has had: never
      ahead of the table, the table's row if the versions are equal, and the table's row exactly
      if it was fetched, by this reader or by whoever filled the cache, after the account's last
      commit. */
  lemma {:induction false} ToldIff(acts: seq<Action>, c: ClientId)
    requires IsRun(START, acts) && c in Run(START, acts).clients && Run(START, acts).clients[c].pc.Answered?
    ensures var s := Run(START, acts);
            var a, told := s.clients[c].account, s.clients[c].pc;
            && a in s.rows && a in s.changed && told.row.version <= s.rows[a].version
            && (told.row.version == s.rows[a].version ==> told.row == s.rows[a])
            && (told.row == s.rows[a] <==> told.rowFetchedAt > s.changed[a])
  {
    hide Next, Enabled, IsRun, Run, RowsOk, LocksOk, CreatesOk, ChangedOk, CacheCopiesOk;
    StartOk();
    RunKeeps(START, acts);
    RunKeepsCopies(START, acts);
    var s := Run(START, acts);
    AnsweredFacts(s, c);
  }

  lemma {:induction false} AnsweredFacts(s: State, c: ClientId)
    requires Inv(s) && ReaderCopiesOk(s) && c in s.clients && s.clients[c].pc.Answered?
    ensures OnceTrue(s, s.clients[c].account, s.clients[c].pc.row)
    ensures CopyOk(s, s.clients[c].account, s.clients[c].pc.row, s.clients[c].pc.rowFetchedAt)
  {
    assert ClientOk(s, c, s.clients[c]) && ReaderOk(s, s.clients[c]);
    hide EventCount;
  }

  // ---------- A stale entry can survive ----------

  ghost predicate Reaches(from: State, acts: seq<Action>, to: State) { IsRun(from, acts) && Run(from, acts) == to }

  lemma {:induction false} RunAppend(s: State, acts: seq<Action>, act: Action)
    requires IsRun(s, acts) && Enabled(Run(s, acts), act)
    ensures IsRun(s, acts + [act]) && Run(s, acts + [act]) == Next(Run(s, acts), act)
    decreases |acts|
  {
    hide Enabled, Next;
    if acts == [] {
      assert acts + [act] == [act];
      assert IsRun(Next(s, act), []) && Run(Next(s, act), []) == Next(s, act);
    } else {
      assert (acts + [act])[1..] == acts[1..] + [act];
      RunAppend(Next(s, acts[0]), acts[1..], act);
    }
  }

  lemma {:induction false} Extend(from: State, acts: seq<Action>, s: State, act: Action) returns (more: seq<Action>, t: State)
    requires Reaches(from, acts, s) && Enabled(s, act)
    ensures Reaches(from, more, t) && t == Next(s, act)
  {
    hide Next, Enabled;
    RunAppend(from, acts, act);
    more, t := acts + [act], Next(s, act);
  }

  lemma {:induction false} StartReached(from: State)
    ensures Reaches(from, [], from)
  {
  }

  const DETAILS := Details("customer", "DDA", "UGX", 0)
  const OPEN := Row(DETAILS, Active, 1)

  /** Client 0 opens an account. */
  lemma {:induction false} Opened() returns (acts: seq<Action>, s: State)
    ensures Reaches(START, acts, s) && s.rows == map["a" := OPEN] && s.locks == map[] && s.cache == map[]
    ensures s.clients.Keys == {0} && Done(s.clients[0].pc) && s.clock == 4
  {
    hide Reaches, LockRow, UpdateRow, Fail;
    StartReached(START);
    acts, s := [], START;
    acts, s := Extend(START, acts, s, Arrive(0, Create(DETAILS), "a"));
    acts, s := Extend(START, acts, s, Step(0, true));
    acts, s := Extend(START, acts, s, Step(0, true));
    acts, s := Extend(START, acts, s, Step(0, true));
  }

  /** Client 1 misses the cache and fetches the row. */
  lemma {:induction false} ReaderFetched() returns (acts: seq<Action>, s: State)
    ensures Reaches(START, acts, s) && s.rows == map["a" := OPEN] && s.locks == map[] && s.cache == map[]
    ensures s.clients.Keys == {0, 1} && Done(s.clients[0].pc)
    ensures s.clients[1] == Client(Get, "a", Storing(OPEN, 6)) && s.clock == 7
  {
    hide Reaches, LockRow, UpdateRow, Fail;
    acts, s := Opened();
    acts, s := Extend(START, acts, s, Arrive(1, Get, "a"));
    acts, s := Extend(START, acts, s, Step(1, true));
    acts, s := Extend(START, acts, s, Step(1, true));
  }

  /** Client 2 holds the row lock and has updated the row. */
  lemma {:induction false} FreezeUpdated() returns (acts: seq<Action>, s: State)
    ensures Reaches(START, acts, s) && s.rows == map["a" := OPEN]
    ensures s.clients.Keys == {0, 1, 2} && Done(s.clients[0].pc) && s.clock == 10
    ensures s.clients[1] == Client(Get, "a", Storing(OPEN, 6))
    ensures s.clients[2] == Client(Freeze, "a", InsertingEvent(Row(DETAILS, Frozen, 2)))
  {
    hide Reaches, Fail, CommitRow;
    acts, s := ReaderFetched();
    acts, s := Extend(START, acts, s, Arrive(2, Freeze, "a"));
    acts, s := Extend(START, acts, s, Step(2, true));
    acts, s := Extend(START, acts, s, Step(2, true));
  }

  /** Client 2 is about to commit the freeze. */
  lemma {:induction false} FreezeReady() returns (acts: seq<Action>, s: State)
    ensures Reaches(START, acts, s) && s.rows == map["a" := OPEN]
    ensures s.clients.Keys == {0, 1, 2} && Done(s.clients[0].pc) && s.clock == 11
    ensures s.clients[1] == Client(Get, "a", Storing(OPEN, 6))
    ensures s.clients[2] == Client(Freeze, "a", Committing(Row(DETAILS, Frozen, 2), Event(WasFrozen, "a")))
  {
    hide Reaches, Fail, LockRow, UpdateRow, CommitRow;
    acts, s := FreezeUpdated();
    acts, s := Extend(START, acts, s, Step(2, true));
  }

  /** Client 2 commits the freeze and deletes the cache entry. */
  lemma {:induction false} FrozenMeanwhile() returns (acts: seq<Action>, s: State)
    ensures Reaches(START, acts, s) && s.rows == map["a" := Row(DETAILS, Frozen, 2)]
    ensures s.clients.Keys == {0, 1, 2} && Done(s.clients[0].pc)
    ensures s.clients[1] == Client(Get, "a", Storing(OPEN, 6))
    ensures s.clients[2] == Client(Freeze, "a", Cleared(Commit(2, 11), 12))
    ensures s.clock == 13
  {
    hide Reaches, Fail, LockRow, UpdateRow, Unlock;
    acts, s := FreezeReady();
    acts, s := Extend(START, acts, s, Step(2, true));
    acts, s := Extend(START, acts, s, Step(2, true));
  }

  /** The reader then stores what it had fetched: everybody is done and the freeze has deleted
      the cache entry, yet the cache says the account is active while the table says it is frozen. */
  lemma {:induction false} StaleCanSurvive() returns (acts: seq<Action>)
    ensures IsRun(START, acts)
    ensures var s := Run(START, acts);
            && "a" in s.cache && "a" in s.rows
            && s.cache["a"].row.standing == Active && s.rows["a"].standing == Frozen
            && forall c | c in s.clients :: Done(s.clients[c].pc)
  {
    var s: State;
    acts, s := FrozenMeanwhile();
    hide Run, IsRun, LockRow, UpdateRow, CommitRow, Fail;
    acts, s := Extend(START, acts, s, Step(1, true));
  }
}
