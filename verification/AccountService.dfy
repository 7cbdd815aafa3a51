/** The account service call by call, as one caller sees it: the tables and the cache are
    updated in place, a failed database transaction is rolled back, cache errors are ignored. */
module AccountService {
  import opened Common
  import opened Decimals
  import opened AccountProtocol
  import Bank
  import Ledger

  datatype Limit = Malformed | Limit(value: real)

  datatype CreateRequest = CreateRequest(customer: string, accountType: string, currency: string, dailyLimit: Limit)

  const ACCOUNT_TYPES := {"DDA", "SAVINGS", "LOAN"}
  const CURRENCIES := {"USD", "EUR", "GBP", "UGX", "KES", "TZS"}

  predicate WellFormed(req: CreateRequest) {
    req.customer != "" && req.accountType in ACCOUNT_TYPES && req.currency in CURRENCIES && req.dailyLimit.Limit?
  }

  datatype Hold = Hold(account: AccountId, amount: int, expiresAt: Option<int>, released: bool)

  predicate Outstanding(h: Hold, a: AccountId, now: int) {
    h.account == a && !h.released && (h.expiresAt.None? || h.expiresAt.value > now)
  }

  /** Total of the holds on an account that are neither released nor expired. */
  function HeldTotal(holds: seq<Hold>, a: AccountId, now: int): int {
    if holds == [] then 0
    else HeldTotal(holds[..|holds| - 1], a, now)
         + (if Outstanding(holds[|holds| - 1], a, now) then holds[|holds| - 1].amount else 0)
  }

  /** One more hold counts unless it is on another account, released, or expired by now; a hold
      that expires exactly now has expired. */
  lemma {:induction false} HeldTotalOfMore(holds: seq<Hold>, h: Hold, a: AccountId, now: int)
    ensures HeldTotal(holds + [h], a, now)
         == HeldTotal(holds, a, now)
            + (if h.account != a || h.released || (h.expiresAt.Some? && h.expiresAt.value <= now) then 0 else h.amount)
  {
    assert (holds + [h])[..|holds|] == holds;
  }

  datatype BalanceView = BalanceView(current: int, available: int, held: int)

  /** What is committed: the account rows and their lifecycle events. */
  datatype Tables = Tables(rows: map<AccountId, Row>, outbox: seq<Event>)

  function WithAccount(t: Tables, a: AccountId, details: Details): Tables {
    Tables(t.rows[a := Row(details, Active, 1)], t.outbox + [Event(Created, a)])
  }

  function WithStanding(t: Tables, a: AccountId, standing: Standing, kind: EventKind): Tables
    requires a in t.rows
  {
    Tables(t.rows[a := t.rows[a].(standing := standing, version := t.rows[a].version + 1)], t.outbox + [Event(kind, a)])
  }

  /** An account's version is the number of its lifecycle events. */
  ghost predicate Lawful(t: Tables) {
    && (forall a | a in t.rows :: t.rows[a].version == EventCount(t.outbox, a))
    && (forall e <- t.outbox :: e.account in t.rows)
  }

  lemma {:induction false} OpenedLawful(t: Tables, a: AccountId, details: Details)
    requires Lawful(t) && a !in t.rows
    ensures Lawful(WithAccount(t, a, details))
  {
    hide EventCount;
    NoEvents(t.outbox, a);
    forall b ensures EventCount(t.outbox + [Event(Created, a)], b) == EventCount(t.outbox, b) + (if b == a then 1 else 0) {
      EventCountAppend(t.outbox, Event(Created, a), b);
    }
  }

  lemma {:induction false} MovedLawful(t: Tables, a: AccountId, standing: Standing, kind: EventKind)
    requires Lawful(t) && a in t.rows
    ensures Lawful(WithStanding(t, a, standing, kind))
  {
    hide EventCount;
    forall b ensures EventCount(t.outbox + [Event(kind, a)], b) == EventCount(t.outbox, b) + (if b == a then 1 else 0) {
      EventCountAppend(t.outbox, Event(kind, a), b);
    }
  }

  /** Which database call of an operation fails, if any, counted from 1 in the order they are made. */
  type Fault = nat

  class Service {
    var rows: map<AccountId, Row>
    var outbox: seq<Event>
    var cache: map<AccountId, Row>
    var customers: set<string>
    var entries: seq<Ledger.Entry>
    var holds: seq<Hold>

    constructor (known: set<string>)
      ensures Valid() && Coherent() && Committed() == Tables(map[], []) && cache == map[]
      ensures customers == known && entries == [] && holds == []
    {
      rows, outbox, cache, customers, entries, holds := map[], [], map[], known, [], [];
    }

    function Committed(): Tables
      reads this
    {
      Tables(rows, outbox)
    }

    /** A cached row is a row the account has had. */
    ghost predicate Valid()
      reads this
    {
      && Lawful(Committed())
      && forall a | a in cache :: a in rows && cache[a].version <= rows[a].version
                                  && (cache[a].version == rows[a].version ==> cache[a] == rows[a])
    }

    /** A cached row is the account's row. */
    ghost predicate Coherent()
      reads this
    {
      forall a | a in cache :: a in rows && cache[a] == rows[a]
    }

    // ---------- Repository ----------

    /** INSERT INTO accounts: the limit is rounded to its column and must not be negative, the
        customer must exist. */
    method Create(a: AccountId, req: CreateRequest, fails: bool) returns (failure: Option<Failure>)
      requires req.dailyLimit.Limit? && a !in rows
      modifies this`rows
      ensures failure == if fails || req.customer !in customers
                            || Round(req.dailyLimit.value) < 0 || !Fits(Round(req.dailyLimit.value))
                         then Some(DatabaseError) else None
      ensures rows == if failure.Some? then old(rows)
                      else old(rows)[a := Row(DetailsOf(req), Active, 1)]
    {
      var limit := Round(req.dailyLimit.value);
      if fails || req.customer !in customers || limit < 0 || !Fits(limit) { return Some(DatabaseError); }
      rows := rows[a := Row(Details(req.customer, req.accountType, req.currency, limit), Active, 1)];
      failure := None;
    }

    /** UPDATE accounts SET status = ..., version = version + 1 WHERE id = ... AND version = ... */
    method UpdateStatus(a: AccountId, standing: Standing, version: nat, fails: bool) returns (failure: Option<Failure>)
      modifies this`rows
      ensures failure == if fails then Some(DatabaseError)
                         else if a !in old(rows) || old(rows)[a].version != version then Some(VersionConflict) else None
      ensures rows == if failure.Some? then old(rows)
                      else old(rows)[a := old(rows)[a].(standing := standing, version := version + 1)]
    {
      if fails { return Some(DatabaseError); }
      if a !in rows || rows[a].version != version { return Some(VersionConflict); }
      rows := rows[a := rows[a].(standing := standing, version := rows[a].version + 1)];
      failure := None;
    }

    method InsertOutboxEvent(event: Event, fails: bool) returns (failure: Option<Failure>)
      modifies this`outbox
      ensures failure == if fails then Some(DatabaseError) else None
      ensures outbox == if fails then old(outbox) else old(outbox) + [event]
    {
      if fails { return Some(DatabaseError); }
      outbox := outbox + [event];
      failure := None;
    }

    /** The two sums behind an account's balance: its entries, debits and credits alike, and
        its outstanding holds. */
    method GetBalance(a: AccountId, now: int, fails: bool) returns (view: Option<BalanceView>)
      ensures view == if fails then None
                      else var current, held := Bank.GrossTotal(entries, a), HeldTotal(holds, a, now);
                           Some(BalanceView(current, current - held, held))
    {
      if fails { return None; }
      var current, held := 0, 0;
      var i := 0;
      while i < |entries|
        invariant 0 <= i <= |entries| && current == Bank.GrossTotal(entries[..i], a)
      {
        assert entries[..i + 1][..i] == entries[..i];
        if entries[i].account == a { current := current + entries[i].amount; }
        i := i + 1;
      }
      assert entries[..i] == entries;
      i := 0;
      while i < |holds|
        invariant 0 <= i <= |holds| && held == HeldTotal(holds[..i], a, now)
      {
        assert holds[..i + 1][..i] == holds[..i];
        if Outstanding(holds[i], a, now) { held := held + holds[i].amount; }
        i := i + 1;
      }
      assert holds[..i] == holds;
      view := Some(BalanceView(current, current - held, held));
    }

    // ---------- Operations ----------

    /** `a` is the generated id. */
    method CreateAccount(a: AccountId, req: CreateRequest, fault: Fault) returns (failure: Option<Failure>)
      requires Valid() && a !in rows
      modifies this`rows, this`outbox
      ensures Valid() && (old(Coherent()) ==> Coherent())
      ensures failure == Some(InvalidInput) <==>
                || req.customer == "" || req.accountType !in {"DDA", "SAVINGS", "LOAN"}
                || req.currency !in {"USD", "EUR", "GBP", "UGX", "KES", "TZS"} || req.dailyLimit == Malformed
      ensures failure.None? <==>
                WellFormed(req) && req.customer in customers && 0 <= Round(req.dailyLimit.value)
                && Fits(Round(req.dailyLimit.value)) && !(1 <= fault <= 4)
      ensures failure.None? ==>
                var details := Details(req.customer, req.accountType, req.currency, Round(req.dailyLimit.value));
                rows == old(rows)[a := Row(details, Active, 1)] && outbox == old(outbox) + [Event(Created, a)]
      ensures failure.Some? ==> rows == old(rows) && outbox == old(outbox)
    {
      if req.customer == "" { return Some(InvalidInput); }
      if req.accountType !in ACCOUNT_TYPES { return Some(InvalidInput); }
      if req.currency !in CURRENCIES { return Some(InvalidInput); }
      if req.dailyLimit.Malformed? { return Some(InvalidInput); }
      if fault == 1 { return Some(DatabaseError); }
      var before, events := rows, outbox;
      OpenedLawful(Committed(), a, DetailsOf(req));
      failure := Create(a, req, fault == 2);
      if failure.None? { failure := InsertOutboxEvent(Event(EventKind.Created, a), fault == 3); }
      if failure.None? && fault == 4 { failure := Some(DatabaseError); }
      if failure.Some? { rows, outbox := before, events; }
    }

    /** Row lock, status check, update, event; then the cache entry goes. */
    method FreezeAccount(a: AccountId, fault: Fault, cacheUp: bool) returns (failure: Option<Failure>)
      requires Valid()
      modifies this`rows, this`outbox, this`cache
      ensures Valid() && (old(Coherent()) && (failure.Some? || cacheUp) ==> Coherent())
      ensures failure.None? <==> a in old(rows) && old(rows)[a].standing == Active && !(1 <= fault <= 5)
      ensures failure.None? ==>
                && rows == old(rows)[a := Row(old(rows)[a].details, Frozen, old(rows)[a].version + 1)]
                && outbox == old(outbox) + [Event(WasFrozen, a)]
                && cache == if cacheUp then old(cache) - {a} else old(cache)
      ensures failure.Some? ==> rows == old(rows) && outbox == old(outbox) && cache == old(cache)
      ensures failure != Some(VersionConflict)
      ensures fault == 0 && a !in old(rows) ==> failure == Some(NotFound)
      ensures fault == 0 && a in old(rows) && old(rows)[a].standing != Active ==> failure == Some(NotActive)
    {
      var before, events := rows, outbox;
      failure := FreezeInTx(a, fault);
      if failure.None? && fault == 5 { failure := Some(DatabaseError); }
      if failure.Some? { rows, outbox := before, events; return; }
      if cacheUp { cache := cache - {a}; }
    }

    method FreezeInTx(a: AccountId, fault: Fault) returns (failure: Option<Failure>)
      requires Valid()
      modifies this`rows, this`outbox
      ensures failure == if fault == 1 || fault == 2 then Some(DatabaseError)
                         else if a !in old(rows) then Some(NotFound)
                         else if old(rows)[a].standing != Active then Some(NotActive)
                         else if fault == 3 || fault == 4 then Some(DatabaseError) else None
      ensures failure.None? ==> Committed() == WithStanding(old(Committed()), a, Frozen, WasFrozen)
      ensures failure.None? ==> Lawful(Committed())
    {
      if fault == 1 || fault == 2 { return Some(DatabaseError); }
      if a !in rows { return Some(NotFound); }
      var read := rows[a];
      if read.standing != Active { return Some(NotActive); }
      MovedLawful(Committed(), a, Frozen, WasFrozen);
      failure := UpdateStatus(a, Frozen, read.version, fault == 3);
      if failure.Some? { return; }
      failure := InsertOutboxEvent(Event(WasFrozen, a), fault == 4);
    }

    /** Balance check outside the transaction, then row lock, update, event; then the cache
        entry goes.  The standing is not checked: a frozen or a closed account can be closed. */
    method CloseAccount(a: AccountId, now: int, fault: Fault, cacheUp: bool) returns (failure: Option<Failure>)
      requires Valid()
      modifies this`rows, this`outbox, this`cache
      ensures Valid() && (old(Coherent()) && (failure.Some? || cacheUp) ==> Coherent())
      ensures failure.None? <==> a in old(rows) && Bank.GrossTotal(entries, a) == 0 && !(1 <= fault <= 6)
      ensures failure.None? ==>
                && rows == old(rows)[a := Row(old(rows)[a].details, Closed, old(rows)[a].version + 1)]
                && outbox == old(outbox) + [Event(WasClosed, a)]
                && cache == if cacheUp then old(cache) - {a} else old(cache)
      ensures failure.Some? ==> rows == old(rows) && outbox == old(outbox) && cache == old(cache)
      ensures failure != Some(VersionConflict)
      ensures failure == Some(NonZeroBalance) <==> fault != 1 && Bank.GrossTotal(entries, a) != 0
      ensures fault == 0 && a !in old(rows) && Bank.GrossTotal(entries, a) == 0 ==> failure == Some(NotFound)
    {
      var view := GetBalance(a, now, fault == 1);
      if view.None? { return Some(DatabaseError); }
      if view.value.current != 0 { return Some(NonZeroBalance); }
      var before, events := rows, outbox;
      failure := CloseInTx(a, fault);
      if failure.None? && fault == 6 { failure := Some(DatabaseError); }
      if failure.Some? { rows, outbox := before, events; return; }
      if cacheUp { cache := cache - {a}; }
    }

    method CloseInTx(a: AccountId, fault: Fault) returns (failure: Option<Failure>)
      requires Valid()
      modifies this`rows, this`outbox
      ensures failure == if fault == 2 || fault == 3 then Some(DatabaseError)
                         else if a !in old(rows) then Some(NotFound)
                         else if fault == 4 || fault == 5 then Some(DatabaseError) else None
      ensures failure.None? ==> Committed() == WithStanding(old(Committed()), a, Closed, WasClosed)
      ensures failure.None? ==> Lawful(Committed())
    {
      if fault == 2 || fault == 3 { return Some(DatabaseError); }
      if a !in rows { return Some(NotFound); }
      var read := rows[a];
      MovedLawful(Committed(), a, Closed, WasClosed);
      failure := UpdateStatus(a, Closed, read.version, fault == 4);
      if failure.Some? { return; }
      failure := InsertOutboxEvent(Event(WasClosed, a), fault == 5);
    }

    /** Cache first, then the table; a fetched row is cached.  While the cache is coherent the
        answer is the table's row. */
    method GetAccount(a: AccountId, cacheUp: bool, fails: bool) returns (row: Option<Row>, failure: Option<Failure>)
      requires Valid()
      modifies this`cache
      ensures Valid() && (old(Coherent()) ==> Coherent())
      ensures cacheUp && a in old(cache) ==> row == Some(old(cache)[a]) && failure.None? && cache == old(cache)
      ensures !(cacheUp && a in old(cache)) ==>
                && failure == (if fails then Some(DatabaseError) else if a !in rows then Some(NotFound) else None)
                && row == (if failure.Some? then None else Some(rows[a]))
                && cache == if failure.None? && cacheUp then old(cache)[a := rows[a]] else old(cache)
      ensures old(Coherent()) && row.Some? ==> a in rows && row.value == rows[a]
    {
      if cacheUp && a in cache { return Some(cache[a]), None; }
      if fails { return None, Some(DatabaseError); }
      if a !in rows { return None, Some(NotFound); }
      if cacheUp { cache := cache[a := rows[a]]; }
      return Some(rows[a]), None;
    }
  }

  function DetailsOf(req: CreateRequest): Details
    requires req.dailyLimit.Limit?
  {
    Details(req.customer, req.accountType, req.currency, Round(req.dailyLimit.value))
  }

  // ---------- The service is the protocol run alone ----------

  function TablesOf(s: State): Tables { Tables(s.rows, s.outbox) }

  lemma {:induction false} RunToLock(s: State, c: ClientId, a: AccountId, task: Task) returns (acts: seq<Action>, t: State)
    requires c !in s.clients && a in s.rows && a !in s.locks && (task.Freeze? || task.Close?)
    ensures Reaches(s, acts, t) && c in t.clients && t.clients[c] == Client(task, a, Updating(s.rows[a]))
    ensures TablesOf(t) == TablesOf(s) && t.cache == s.cache && t.locks == s.locks[a := c]
  {
    hide Reaches, Fail, Unlock, UpdateRow, CommitRow;
    StartReached(s);
    acts, t := Extend(s, [], s, Arrive(c, task, a));
    if task.Close? { acts, t := Extend(s, acts, t, Step(c, true)); }
    assert t.clients[c] == Client(task, a, Locking);
    acts, t := Extend(s, acts, t, Step(c, true));
  }

  /** The steps up to and including the commit. */
  lemma {:induction false} RunToCommit(s: State, c: ClientId, a: AccountId, task: Task) returns (acts: seq<Action>, t: State)
    requires c !in s.clients && a in s.rows && a !in s.locks
    requires task.Close? || (task.Freeze? && s.rows[a].standing == Active)
    ensures Reaches(s, acts, t) && c in t.clients && t.clients[c].account == a && t.clients[c].pc.DeletingCache?
    ensures TablesOf(t) == WithStanding(TablesOf(s), a, Target(task), if task.Freeze? then WasFrozen else WasClosed)
    ensures t.cache == s.cache && t.locks == Unlock(s.locks[a := c], c)
  {
    hide Reaches, Fail, Unlock, LockRow;
    acts, t := RunToLock(s, c, a, task);
    var staged := s.rows[a].(standing := Target(task), version := s.rows[a].version + 1);
    acts, t := Extend(s, acts, t, Step(c, true));
    assert t.clients[c] == Client(task, a, InsertingEvent(staged));
    hide UpdateRow;
    acts, t := Extend(s, acts, t, Step(c, true));
    acts, t := Extend(s, acts, t, Step(c, true));
  }

  /** A freeze of an active account, or a close of an empty one, run alone through all steps
      of the protocol, commits what the service commits and deletes the cache entry. */
  lemma {:induction false} AloneIsTheService(s: State, c: ClientId, a: AccountId, task: Task) returns (acts: seq<Action>)
    requires c !in s.clients && a in s.rows && a !in s.locks
    requires task.Close? || (task.Freeze? && s.rows[a].standing == Active)
    ensures IsRun(s, acts)
    ensures var t := Run(s, acts);
            && t.rows == s.rows[a := Row(s.rows[a].details, if task.Freeze? then Frozen else Closed, s.rows[a].version + 1)]
            && t.outbox == s.outbox + [Event(if task.Freeze? then WasFrozen else WasClosed, a)]
            && t.cache == s.cache - {a} && c in t.clients && t.clients[c].pc.Cleared?
            && (forall b | b in t.locks :: b in s.locks)
  {
    var t: State;
    acts, t := RunToCommit(s, c, a, task);
    hide Run, IsRun, LockRow, UpdateRow, CommitRow, Fail;
    acts, t := Extend(s, acts, t, Step(c, true));
  }

  /** An account opened alone is there, active, with its event. */
  lemma {:induction false} OpenedAlone(s: State, c: ClientId, a: AccountId, details: Details) returns (acts: seq<Action>)
    requires c !in s.clients && FreshAccount(s, a)
    ensures IsRun(s, acts)
    ensures var t := Run(s, acts);
            && t.rows == s.rows[a := Row(details, Active, 1)] && t.outbox == s.outbox + [Event(Created, a)]
            && t.cache == s.cache && c in t.clients && t.clients[c].pc == Finished
  {
    hide Reaches, LockRow, UpdateRow, Fail, Unlock, FreshAccount;
    var t: State;
    StartReached(s);
    acts, t := Extend(s, [], s, Arrive(c, Create(details), a));
    acts, t := Extend(s, acts, t, Step(c, true));
    acts, t := Extend(s, acts, t, Step(c, true));
    hide Run, IsRun;
    acts, t := Extend(s, acts, t, Step(c, true));
    ReachesIs(s, acts, t);
  }

  lemma {:induction false} ReachesIs(from: State, acts: seq<Action>, to: State)
    requires Reaches(from, acts, to)
    ensures IsRun(from, acts) && Run(from, acts) == to
  {
  }

  /** A reader has looked into the cache. */
  lemma {:induction false} CacheTried(s: State, c: ClientId, a: AccountId) returns (acts: seq<Action>, t: State)
    requires c !in s.clients
    ensures Reaches(s, acts, t) && TablesOf(t) == TablesOf(s) && t.cache == s.cache && c in t.clients
    ensures t.clients[c] == Client(Get, a, if a in s.cache then Answered(s.cache[a].row, s.cache[a].fetchedAt) else Fetching)
  {
    hide Reaches, LockRow, UpdateRow, CommitRow, Unlock, Fail;
    StartReached(s);
    acts, t := Extend(s, [], s, Arrive(c, Get, a));
    acts, t := Extend(s, acts, t, Step(c, true));
  }

  /** A reader alone is answered the cached row if there is one, and the table's row, which it
      caches, if not; without a row it is told so. */
  lemma {:induction false} ReadAlone(s: State, c: ClientId, a: AccountId) returns (acts: seq<Action>)
    requires c !in s.clients
    ensures IsRun(s, acts)
    ensures var t := Run(s, acts);
            && t.rows == s.rows && t.outbox == s.outbox && c in t.clients
            && if a in s.cache then t.cache == s.cache && t.clients[c].pc == Answered(s.cache[a].row, s.cache[a].fetchedAt)
               else if a !in s.rows then t.cache == s.cache && t.clients[c].pc == Failed(NotFound)
               else t.cache.Keys == s.cache.Keys + {a} && t.cache[a].row == s.rows[a]
                    && t.clients[c].pc.Answered? && t.clients[c].pc.row == s.rows[a]
  {
    hide Reaches, LockRow, UpdateRow, CommitRow, Unlock, Run, IsRun;
    var t: State;
    acts, t := CacheTried(s, c, a);
    if a !in s.cache {
      acts, t := Extend(s, acts, t, Step(c, true));
      hide Fail;
      if a in s.rows { acts, t := Extend(s, acts, t, Step(c, true)); }
    }
    hide Next, Enabled;
    ReachesIs(s, acts, t);
  }

  /** Alone, a close of an account with entries, a freeze of one that is not active, and either
      on one that does not exist, are refused and change nothing. */
  lemma {:induction false} RefusedAlone(s: State, c: ClientId, a: AccountId, task: Task, empty: bool)
      returns (acts: seq<Action>)
    requires c !in s.clients && a !in s.locks
    requires task.Freeze? || task.Close?
    requires a !in s.rows || (task.Freeze? && s.rows[a].standing != Active) || (task.Close? && !empty)
    ensures IsRun(s, acts)
    ensures var t := Run(s, acts);
            && t.rows == s.rows && t.outbox == s.outbox && t.cache == s.cache && c in t.clients
            && t.clients[c].pc == Failed(if task.Close? && !empty then NonZeroBalance
                                         else if a !in s.rows then NotFound else NotActive)
  {
    hide Reaches, CommitRow, Unlock;
    var t: State;
    StartReached(s);
    acts, t := Extend(s, [], s, Arrive(c, task, a));
    if task.Close? { acts, t := Extend(s, acts, t, Step(c, empty)); }
    if task.Freeze? || empty {
      acts, t := Extend(s, acts, t, Step(c, true));
      if a in s.rows { acts, t := Extend(s, acts, t, Step(c, true)); }
    }
    hide Run, IsRun;
    ReachesIs(s, acts, t);
  }
}
