/** The ledger's laws in every reachable state of the engine. */
module EngineGuarantees {
  import opened Common
  import opened Ledger
  import opened Engine
  import opened EngineInvariants
  import opened LedgerLaws
  import Overtaking
  import Serialisability

  lemma {:induction false} ReachableIsLawful(s: State, acts: seq<Action>)
    requires Init(s) && IsRun(s, acts)
    ensures Lawful(Run(s, acts).db)
  {
    InitOk(s);
    Serialisability.Serialisable(s, acts);
    EmptyLawful();
    HistoryLawful(EMPTY, History(s, acts));
  }

  /** Insert-only: whatever is committed stays where it is in every continuation. */
  lemma {:induction false} InsertOnly(s: State, before: seq<Action>, after: seq<Action>)
    requires Init(s) && IsRun(s, before) && IsRun(Run(s, before), after)
    ensures Extends(Run(s, before).db, Run(Run(s, before), after).db)
  {
    InitOk(s);
    RunKeeps(s, before);
    Serialisability.Serialisable(Run(s, before), after);
    HistoryExtends(Run(s, before).db, History(Run(s, before), after));
  }

  lemma {:induction false} ReachableIsSolvent(s: State, acts: seq<Action>)
    requires Init(s) && IsRun(s, acts)
    ensures SolventThroughout(Run(s, acts).db.entries)
  {
    InitOk(s);
    Serialisability.Serialisable(s, acts);
    EmptyLawful();
    hide Solvent;
    HistorySolvent(EMPTY, History(s, acts));
  }

  /** No interleaving, with interest runs and aborts anywhere, overdraws a customer: not after
      any entry of the ledger. */
  lemma {:induction false} NoOverdraft(s: State, acts: seq<Action>, account: AccountId, k: nat)
    requires Init(s) && IsRun(s, acts) && !IsInternal(account) && k <= |Run(s, acts).db.entries|
    ensures Balance(Run(s, acts).db.entries[..k], account) >= 0
  {
    ReachableIsSolvent(s, acts);
  }

  /** Every committed transaction is settled double entry with one outbox event. */
  lemma {:induction false} AlwaysDoubleEntry(s: State, acts: seq<Action>, t: Txn)
    requires Init(s) && IsRun(s, acts) && t in Run(s, acts).db.txns
    ensures DoubleEntry(Run(s, acts).db, t)
  {
    ReachableIsLawful(s, acts);
  }

  /** An idempotency key commits at most one transaction, whoever raced for it. */
  lemma {:induction false} AtMostOncePerKey(s: State, acts: seq<Action>, t: Txn, u: Txn)
    requires Init(s) && IsRun(s, acts) && t in Run(s, acts).db.txns && u in Run(s, acts).db.txns
    requires t.key == u.key
    ensures t == u
  {
    hide Solvent, Booked;
    ReachableIsLawful(s, acts);
    SameKeySameTxn(Run(s, acts).db, t, u);
  }

  lemma {:induction false} HistorySides(s: State, acts: seq<Action>)
    requires Inv(s) && IsRun(s, acts)
    ensures Run(s, acts).expenseSide == s.expenseSide
    ensures forall op <- History(s, acts) :: op.Post? ==> op.expenseSide == s.expenseSide
    decreases |acts|
  {
    if acts != [] {
      NextKeeps(s, acts[0]);
      var t := Next(s, acts[0]);
      assert t.expenseSide == s.expenseSide by {
        if acts[0].Step? { StepFrame(s, acts[0].c); }
        hide Inv, DoStep;
      }
      hide Inv, Next, Enabled;
      HistorySides(t, acts[1..]);
      assert forall op <- Committed(s, acts[0]) :: op.Post? ==> op.expenseSide == s.expenseSide;
    }
  }

  /** Total credits exceed total debits by twice the interest paid when the expense leg is
      written as a credit, and by nothing otherwise. */
  lemma {:induction false} TotalsPerCurrency(s: State, acts: seq<Action>, currency: string)
    requires Init(s) && IsRun(s, acts)
    ensures var es := Run(s, acts).db.entries; NetTotal(es, currency) == Excess(es, s.expenseSide, currency)
  {
    InitOk(s);
    Serialisability.Serialisable(s, acts);
    HistorySides(s, acts);
    HistoryTotals(EMPTY, History(s, acts), s.expenseSide, currency);
  }

  /** Debits equal credits in every currency exactly when the expense leg is a debit or no
      interest has been paid yet. */
  lemma {:induction false} BooksBalance(s: State, acts: seq<Action>)
    requires Init(s) && IsRun(s, acts)
    ensures var es := Run(s, acts).db.entries;
            (forall currency :: NetTotal(es, currency) == 0) <==> s.expenseSide == Debit || InterestPaid(es) == 0
  {
    hide NetTotal, InterestPaid, Run, IsRun, Init;
    var es := Run(s, acts).db.entries;
    if s.expenseSide == Credit && InterestPaid(es) != 0 {
      TotalsPerCurrency(s, acts, INTEREST_CURRENCY);
    } else {
      forall currency ensures NetTotal(es, currency) == 0 { TotalsPerCurrency(s, acts, currency); }
    }
  }

  /** A balance seen under a lock was never negative, so its lag never exceeds the balance. */
  lemma {:induction false} LagWithinBalance(s: State, c: Id, a: AccountId)
    requires Inv(s) && SolventThroughout(s.db.entries) && c in s.clients && !IsInternal(a)
    ensures Lag(s, s.clients[c], a) <= Balance(s.db.entries, a)
  {
    var cl := s.clients[c];
    assert s.db.entries[..|s.db.entries|] == s.db.entries;
    assert Balance(s.db.entries[..|s.db.entries|], a) >= 0;
    if a in cl.seen {
      assert ReadOk(s.db.entries, a, cl.seen[a]) by {
        assert ClientOk(s, c, cl);
        hide ShapeOk, HoldsOk, RowsOk, WellFormed;
      }
    }
  }

  lemma {:induction false} CommitRunning(s: State, c: Id)
    requires Inv(s) && CanStep(s, c) && s.clients[c].pc.Committing?
    requires Booked(s.db) && SolventThroughout(s.db.entries)
    ensures var cl, after, n := s.clients[c], DoStep(s, c).db, |s.db.entries|;
            && |after.entries| == n + 2
            && RunningBehind(after, n, Lag(s, cl, cl.req.Debited()))
            && RunningBehind(after, n + 1, Lag(s, cl, cl.req.Credited()))
  {
    var cl := s.clients[c];
    Serialisability.CommitIsAtomic(s, c);
    hide Inv, Booked, SolventThroughout, RunningBehind, DoStep, Apply, Lag, CanStep, IsInternal;
    if !IsInternal(cl.req.Credited()) { LagWithinBalance(s, c, cl.req.Credited()); }
    ServedRunning(s.db, c, cl.req, Lag(s, cl, cl.req.Debited()), Lag(s, cl, cl.req.Credited()));
  }

  /** What a commit stores as running balances: the true balance less the interest credited
      since the lock, plus one unit on the rounding tie of a debit.  Nothing accumulates. */
  lemma {:induction false} CommittedRunning(start: State, acts: seq<Action>, c: Id)
    requires Init(start) && IsRun(start, acts)
    requires CanStep(Run(start, acts), c) && Run(start, acts).clients[c].pc.Committing?
    ensures var s := Run(start, acts);
            var cl, after, n := s.clients[c], DoStep(s, c).db, |s.db.entries|;
            && |after.entries| == n + 2
            && RunningBehind(after, n, Serialisability.InterestSince(s, cl, cl.req.Debited()))
            && RunningBehind(after, n + 1, Serialisability.InterestSince(s, cl, cl.req.Credited()))
  {
    hide Inv, Solvent, UniqueHeaders, Booked, SolventThroughout, RunningBehind, DoStep, Lag, Serialisability.InterestSince;
    var s := Run(start, acts);
    hide CanStep;
    InitOk(start);
    RunKeeps(start, acts);
    ReachableIsLawful(start, acts);
    ReachableIsSolvent(start, acts);
    CommitRunning(s, c);
    Serialisability.LagIsInterestSince(s, c, s.clients[c].req.Debited());
    Serialisability.LagIsInterestSince(s, c, s.clients[c].req.Credited());
  }

  /** A lag shows in the stored balance. */
  lemma {:induction false} LagShows(db: Tables, i: nat, lag: nat)
    requires i < |db.entries| && RunningBehind(db, i, lag) && db.entries[i].kind != Interest
    requires IsInternal(db.entries[i].account) ==> lag == 0
    ensures RunningOk(db, i) <==> lag == 0
  {
    hide EventsOf, Balance;
  }

  /** The rows appended by a commit are on the accounts of the request. */
  lemma {:induction false} CommittedLegs(s: State, c: Id)
    requires Inv(s) && CanStep(s, c) && s.clients[c].pc.Committing?
    ensures var req, after, n := s.clients[c].req, DoStep(s, c).db, |s.db.entries|;
            && Acceptable(req) && |after.entries| == n + 2
            && after.entries[n].account == req.Debited() && after.entries[n].kind == req.Kind()
            && after.entries[n + 1].account == req.Credited() && after.entries[n + 1].kind == req.Kind()
  {
    var cl := s.clients[c];
    Serialisability.CommittingFacts(s, c, cl);
    Serialisability.CommitRowsShape(c, cl);
    StepRowsFrame(s, c);
    hide Inv, DoStep, ShapeOk, Acceptable, Covered, CommitRows, Storable, CanStep;
  }

  /** A lag of the debited or of the credited account shows in its leg. */
  lemma {:induction false} CommitLagsShow(s: State, c: Id)
    requires Inv(s) && CanStep(s, c) && s.clients[c].pc.Committing?
    requires Booked(s.db) && SolventThroughout(s.db.entries)
    ensures var cl, after, n := s.clients[c], DoStep(s, c).db, |s.db.entries|;
            && |after.entries| == n + 2
            && (RunningOk(after, n) <==> Lag(s, cl, cl.req.Debited()) == 0)
            && (RunningOk(after, n + 1) <==> Lag(s, cl, cl.req.Credited()) == 0)
  {
    var cl, after, n := s.clients[c], DoStep(s, c).db, |s.db.entries|;
    CommitRunning(s, c);
    CommittedLegs(s, c);
    hide Inv, Booked, SolventThroughout, RunningBehind, RunningOk, DoStep, Lag, CanStep, IsInternal, Acceptable;
    if IsInternal(cl.req.Debited()) { Overtaking.InternalNeverLags(s, c, cl.req.Debited()); }
    if IsInternal(cl.req.Credited()) { Overtaking.InternalNeverLags(s, c, cl.req.Credited()); }
    LagShows(after, n, Lag(s, cl, cl.req.Debited()));
    LagShows(after, n + 1, Lag(s, cl, cl.req.Credited()));
  }

  /** A commit stores true running balances exactly if no entry has reached its accounts since
      it locked them. */
  lemma {:induction false} ExactIffUntouched(start: State, acts: seq<Action>, c: Id)
    requires Init(start) && IsRun(start, acts)
    requires CanStep(Run(start, acts), c) && Run(start, acts).clients[c].pc.Committing?
    ensures var s := Run(start, acts);
            var after, n := DoStep(s, c).db, |s.db.entries|;
            && |after.entries| == n + 2
            && (RunningOk(after, n) && RunningOk(after, n + 1)
                <==> Overtaking.UntouchedSinceLock(s, s.clients[c]))
  {
    hide Inv, Solvent, UniqueHeaders, Booked, SolventThroughout, RunningOk, DoStep, Lag, Overtaking.UntouchedSinceLock;
    var s := Run(start, acts);
    hide CanStep, Run, IsRun;
    InitOk(start);
    RunKeeps(start, acts);
    ReachableIsLawful(start, acts);
    ReachableIsSolvent(start, acts);
    CommitLagsShow(s, c);
    Overtaking.LagsZeroIff(s, c);
  }

  /** Stored running balances are the true ones, up to one unit on a rounding tie, in every
      run in which no entry overtakes a commit on an account it has locked. */
  lemma {:induction false} RunningBalances(s: State, acts: seq<Action>, i: nat)
    requires Init(s) && IsRun(s, acts) && Overtaking.NoneOvertaken(s, acts)
    requires i < |Run(s, acts).db.entries|
    ensures RunningOk(Run(s, acts).db, i)
  {
    InitOk(s);
    Serialisability.Serialisable(s, acts);
    Overtaking.AllPromptIff(s, acts);
    EmptyLawful();
    HistoryRunning(EMPTY, History(s, acts));
  }
}
