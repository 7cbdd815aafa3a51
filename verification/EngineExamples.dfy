/** Concrete runs of the engine in which a promise fails: interest posted under a held lock
    leaves a running balance behind the ledger, and an expense leg written as a credit leaves
    the books unbalanced. */
module EngineExamples {
  import opened Common
  import opened Ledger
  import opened Engine
  import LedgerLaws
  import LexOrder

  ghost predicate Reaches(from: State, acts: seq<Action>, to: State) { IsRun(from, acts) && Run(from, acts) == to }

  lemma {:induction false} RunAppend(s: State, acts: seq<Action>, act: Action)
    requires IsRun(s, acts) && Enabled(Run(s, acts), act)
    ensures IsRun(s, acts + [act]) && Run(s, acts + [act]) == Next(Run(s, acts), act)
    decreases |acts|
  {
    hide Enabled, Next;
    if acts == [] {
      assert acts + [act] == [act];
      assert IsRun(Next(s, act), []) && Run(Next(s, act), []) == Next(s, act);
    } else {
      assert (acts + [act])[1..] == acts[1..] + [act];
      RunAppend(Next(s, acts[0]), acts[1..], act);
    }
  }

  lemma {:induction false} Extend(from: State, acts: seq<Action>, s: State, act: Action) returns (more: seq<Action>, t: State)
    requires Reaches(from, acts, s) && Enabled(s, act)
    ensures Reaches(from, more, t) && t == Next(s, act)
  {
    hide Next, Enabled;
    RunAppend(from, acts, act);
    more, t := acts + [act], Next(s, act);
  }

  const BEGIN := State(EMPTY, map["a" := true], map[], map[], map[], Debit)
  const REQUEST := DepositRequest("a", Amount(10.0), "UGX", "k")
  const INTEREST := Posting(1, "i", "a", 5)

  lemma {:induction false} BeginReached()
    ensures Reaches(BEGIN, [], BEGIN)
  {
  }

  lemma {:induction false} RequestOk()
    ensures Validate(REQUEST) == None && REQUEST.Accounts() == ["a"] && REQUEST.LockOrder() == ["a"]
  {
  }

  /** The deposit has locked the account and read a zero balance. */
  lemma {:induction false} Locked() returns (acts: seq<Action>, s: State)
    ensures Reaches(BEGIN, acts, s)
    ensures s == State(EMPTY, map["a" := true], map["a" := 0], map[],
                       map[0 := Client(REQUEST, CheckingFunds, map["a" := Read(0, 0)], None, [], [])], Debit)
  {
    hide Reaches, Validate, LexOrder.Less;
    BeginReached();
    RequestOk();
    acts, s := Extend(BEGIN, [], BEGIN, Arrive(0, REQUEST));
    acts, s := Extend(BEGIN, acts, s, Step(0));
    acts, s := Extend(BEGIN, acts, s, Step(0));
    acts, s := Extend(BEGIN, acts, s, Step(0));
    acts, s := Extend(BEGIN, acts, s, Step(0));
  }

  function InterestTables(): Tables {
    Tables([Txn(1, "i", Interest, Settled)],
           [Entry(1, Interest, "a", Credit, 5, 0, INTEREST_CURRENCY),
            Entry(1, Interest, GL_INTEREST_EXPENSE, Debit, 5, 0, INTEREST_CURRENCY)], [])
  }

  lemma {:induction false} InterestRows()
    ensures Append(EMPTY, PostingRows([INTEREST], Debit)) == InterestTables()
    ensures FreshPostings(EMPTY, [INTEREST])
  {
    assert [INTEREST][..0] == [];
  }

  /** The deposit at one point of its transaction, given what others have done meanwhile. */
  function Depositing(db: Tables, active: bool, pc: PC, header: Option<Txn>, legs: seq<Entry>,
                      keys: map<Key, Id>): State {
    State(db, map["a" := active], map["a" := 0], keys,
          map[0 := Client(REQUEST, pc, map["a" := Read(0, 0)], header, legs, [])], Debit)
  }

  /** Interest reaches the account, and the deposit goes on. */
  lemma {:induction false} Overtaken() returns (acts: seq<Action>, s: State)
    ensures Reaches(BEGIN, acts, s) && s == Depositing(InterestTables(), true, InsertingHeader, None, [], map[])
  {
    hide Reaches, Validate, LexOrder.Less, PostingRows, FreshPostings, InterestTables;
    RequestOk();
    InterestRows();
    acts, s := Locked();
    acts, s := Extend(BEGIN, acts, s, PostInterest([INTEREST]));
    acts, s := Extend(BEGIN, acts, s, Step(0));
  }

  /** The account is frozen, and the deposit goes on. */
  lemma {:induction false} FrozenMeanwhile() returns (acts: seq<Action>, s: State)
    ensures Reaches(BEGIN, acts, s) && s == Depositing(EMPTY, false, InsertingHeader, None, [], map[])
  {
    hide Reaches, Validate, LexOrder.Less;
    RequestOk();
    acts, s := Locked();
    acts, s := Extend(BEGIN, acts, s, SetStatus("a", false));
    acts, s := Extend(BEGIN, acts, s, Step(0));
  }

  const DEBIT_LEG := Entry(0, Deposit, GL_CASH, Debit, 10, 0, "UGX")
  const CREDIT_LEG := Entry(0, Deposit, "a", Credit, 10, 10, "UGX")

  lemma {:induction false} Legs()
    ensures DebitLeg(0, REQUEST, 0) == DEBIT_LEG && CreditLeg(0, REQUEST, 0) == CREDIT_LEG
    ensures Storable(DEBIT_LEG) && Storable(CREDIT_LEG)
    ensures !KeyUsed(InterestTables(), "k") && !KeyUsed(EMPTY, "k")
  {
  }

  const HEADER := Header(0, REQUEST, Pending)
  const KEYS: map<Key, Id> := map["k" := 0]

  lemma {:induction false} HeaderWritten(before: seq<Action>, from: State, db: Tables, active: bool)
    returns (acts: seq<Action>, s: State)
    requires Reaches(BEGIN, before, from) && from == Depositing(db, active, InsertingHeader, None, [], map[])
    requires !KeyUsed(db, "k")
    ensures Reaches(BEGIN, acts, s) && s == Depositing(db, active, InsertingDebit, Some(HEADER), [], KEYS)
  {
    hide Reaches, Validate, LexOrder.Less, KeyUsed;
    RequestOk();
    acts, s := Extend(BEGIN, before, from, Step(0));
  }

  lemma {:induction false} LegsWritten(before: seq<Action>, from: State, db: Tables, active: bool)
    returns (acts: seq<Action>, s: State)
    requires Reaches(BEGIN, before, from) && from == Depositing(db, active, InsertingDebit, Some(HEADER), [], KEYS)
    ensures Reaches(BEGIN, acts, s)
    ensures s == Depositing(db, active, Settling, Some(HEADER), [DEBIT_LEG, CREDIT_LEG], KEYS)
  {
    hide Reaches, Validate, LexOrder.Less, DebitLeg, CreditLeg, Storable;
    RequestOk();
    Legs();
    acts, s := Extend(BEGIN, before, from, Step(0));
    acts, s := Extend(BEGIN, acts, s, Step(0));
    assert s.clients[0].legs == [DEBIT_LEG, CREDIT_LEG];
  }

  /** The rest of the deposit, once its header can be written. */
  lemma {:induction false} DepositCommitted(before: seq<Action>, from: State, db: Tables, active: bool)
    returns (acts: seq<Action>, s: State)
    requires Reaches(BEGIN, before, from) && from == Depositing(db, active, InsertingHeader, None, [], map[])
    requires !KeyUsed(db, "k")
    ensures Reaches(BEGIN, acts, s) && s.db.entries == db.entries + [DEBIT_LEG, CREDIT_LEG]
    ensures s.accounts == map["a" := active]
  {
    hide Reaches, Validate, LexOrder.Less, KeyUsed;
    RequestOk();
    acts, s := HeaderWritten(before, from, db, active);
    acts, s := LegsWritten(acts, s, db, active);
    acts, s := Extend(BEGIN, acts, s, Step(0));
    acts, s := Extend(BEGIN, acts, s, Step(0));
    assert CommitRows(s.clients[0]).entries == [DEBIT_LEG, CREDIT_LEG];
    acts, s := Extend(BEGIN, acts, s, Step(0));
  }

  lemma {:induction false} BalanceIs15()
    ensures Balance(InterestTables().entries + [DEBIT_LEG, CREDIT_LEG], "a") == 15
  {
    var xs, ys := InterestTables().entries, [DEBIT_LEG, CREDIT_LEG];
    BalanceAppend(xs, ys, "a");
    assert xs[..1] == [xs[0]] && xs[..1][..0] == [];
    assert ys[..1] == [ys[0]] && ys[..1][..0] == [];
  }

  /** The deposit is committed with a running balance of 10 while the account stands at 15:
      the condition of a serial run cannot be dropped. */
  lemma {:induction false} RunningBalanceCanBeStale() returns (acts: seq<Action>)
    ensures Init(BEGIN) && IsRun(BEGIN, acts)
    ensures var es := Run(BEGIN, acts).db.entries;
            |es| == 4 && es[3] == CREDIT_LEG && es[3].running == 10 && Balance(es, "a") == 15
  {
    hide Run, IsRun, Balance, KeyUsed;
    var s: State;
    Legs();
    acts, s := Overtaken();
    acts, s := DepositCommitted(acts, s, InterestTables(), true);
    BalanceIs15();
  }

  /** The deposit passed its status check, the account was frozen, and the deposit commits:
      the frozen account receives money. */
  lemma {:induction false} FrozenAccountCanReceive() returns (acts: seq<Action>)
    ensures Init(BEGIN) && IsRun(BEGIN, acts)
    ensures var s := Run(BEGIN, acts);
            s.accounts == map["a" := false] && s.db.entries == [DEBIT_LEG, CREDIT_LEG]
  {
    hide Run, IsRun, KeyUsed;
    var s: State;
    Legs();
    acts, s := FrozenMeanwhile();
    acts, s := DepositCommitted(acts, s, EMPTY, false);
  }

  // ---------- Interest and the books ----------

  /** One interest posting with the expense leg on the credit side: credits exceed debits by
      twice the interest. */
  lemma {:induction false} InterestCanUnbalance()
    ensures var start, acts := BEGIN.(expenseSide := Credit), [PostInterest([INTEREST])];
            Init(start) && IsRun(start, acts)
            && LedgerLaws.NetTotal(Run(start, acts).db.entries, INTEREST_CURRENCY) == 2 * INTEREST.amount
  {
    var start, act := BEGIN.(expenseSide := Credit), PostInterest([INTEREST]);
    InterestRows();
    hide FreshPostings, PostingRows, Append;
    assert CanPost(start, [INTEREST]);
    var t := Next(start, act);
    assert IsRun(t, []) && Run(t, []) == t;
    assert [act][1..] == [] && IsRun(start, [act]) && Run(start, [act]) == t;
    assert t.db.entries == PostingLegs(INTEREST, Credit) by { CreditRows(); }
    LedgerLaws.PairTotals(PostingLegs(INTEREST, Credit)[0], PostingLegs(INTEREST, Credit)[1], INTEREST_CURRENCY);
  }

  lemma {:induction false} CreditRows()
    ensures Append(EMPTY, PostingRows([INTEREST], Credit)).entries == PostingLegs(INTEREST, Credit)
  {
    assert [INTEREST][..0] == [];
    assert PostingRows([], Credit) == EMPTY;
  }
}
