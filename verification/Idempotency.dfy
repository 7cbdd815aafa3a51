/** A request whose key is already committed is answered with the original transaction. */
module Idempotency {
  import opened Common
  import opened Ledger
  import opened Engine
  import opened EngineInvariants
  import opened LedgerLaws
  import Serialisability
  import LexOrder

  /** What a client does while it replays transaction `t`, whose legs are `legs`: it fails
      exactly if it was aborted. */
  predicate Replaying(pc: PC, t: Txn, legs: seq<Entry>, aborted: bool) {
    if aborted then pc == Done(Failed(DatabaseError))
    else
      || pc.Validating? || pc.CheckingKey?
      || pc == FetchingHeader(t.id) || pc == FetchingLegs(t)
      || pc == Done(Responded(Response(t, legs)))
  }

  /** `t` is on record with these legs, and `c` asks for its key. */
  ghost predicate OnRecord(s: State, c: Id, t: Txn, legs: seq<Entry>, aborted: bool) {
    && t in s.db.txns && LegsOf(s.db.entries, t.id) == legs
    && Lawful(s.db)
    && c in s.clients && WellFormed(s.clients[c].req) && s.clients[c].req.key == t.key
    && Replaying(s.clients[c].pc, t, legs, aborted)
  }

  lemma {:induction false} FindUnique(ts: seq<Txn>, t: Txn)
    requires t in ts
    requires forall i, j | 0 <= i < j < |ts| :: ts[i].key != ts[j].key && ts[i].id != ts[j].id
    ensures FindKey(ts, t.key) == Some(t) && FindId(ts, t.id) == Some(t)
  {
    if ts[0] != t {
      assert t in ts[1..];
      FindUnique(ts[1..], t);
      var i :| 0 < i < |ts| && ts[i] == t;
    }
  }

  /** No action of anybody changes what is on record of a committed transaction. */
  lemma {:induction false} RecordStays(s: State, act: Action, t: Txn)
    requires Inv(s) && Enabled(s, act) && Lawful(s.db) && t in s.db.txns
    ensures t in Next(s, act).db.txns && Lawful(Next(s, act).db)
    ensures LegsOf(Next(s, act).db.entries, t.id) == LegsOf(s.db.entries, t.id)
  {
    Serialisability.NextIsAtomic(s, act);
    var ops := Committed(s, act);
    var after := Next(s, act).db;
    hide Inv, Enabled, Next, Apply;
    HistoryLawful(s.db, ops);
    if ops != [] {
      assert |ops| == 1 && ops[1..] == [];
      assert Apply(s.db, ops[0]) == Some(after);
      var rows := ApplyAppends(s.db, ops[0]);
      ForeignRowsChangeNothing(s.db, rows, t.id);
      assert after == Append(s.db, rows);
    }
  }

  /** One step of the replaying client. */
  lemma {:induction false} ReplayStep(s: State, c: Id, t: Txn, legs: seq<Entry>)
    requires OnRecord(s, c, t, legs, false) && CanStep(s, c)
    ensures c in DoStep(s, c).clients && Replaying(DoStep(s, c).clients[c].pc, t, legs, false)
    ensures !s.clients[c].pc.Committing?
  {
    FindUnique(s.db.txns, t);
    hide LexOrder.Less, FindKey, FindId, LegsOf, KeyUsed, Booked, Solvent,
         CheckStatus, GrantLock, CheckFunds, InsertHeader, InsertLeg, Settle, InsertEvent, Commit;
  }

  lemma {:induction false} RequestsStay(s: State, act: Action, c: Id)
    requires Enabled(s, act) && c in s.clients
    ensures c in Next(s, act).clients && Next(s, act).clients[c].req == s.clients[c].req
  {
    hide Validate, LexOrder.Less, FindKey, FindId, LegsOf, KeyUsed, DebitLeg, CreditLeg, Storable, Balance, Covered,
         SettledEvent, CommitRows, Append, PostingRows, FreshPostings, Goto, Release;
    if act.Step? { StepClientsFrame(s, act.c); }
  }

  lemma {:induction false} OthersMove(s: State, act: Action, c: Id)
    requires Enabled(s, act) && c in s.clients && act != Step(c) && act != Abort(c)
    ensures c in Next(s, act).clients && Next(s, act).clients[c] == s.clients[c]
  {
    if act.Step? { StepClientsFrame(s, act.c); }
    hide DoStep, PostingRows, FreshPostings;
  }

  lemma {:induction false} NextStaysOnRecord(s: State, act: Action, c: Id, t: Txn, legs: seq<Entry>, aborted: bool)
    requires Inv(s) && Enabled(s, act) && OnRecord(s, c, t, legs, aborted)
    ensures OnRecord(Next(s, act), c, t, legs, aborted || act == Abort(c))
    ensures forall op <- Committed(s, act) :: op.Serve? ==> op.id != c
  {
    RecordStays(s, act, t);
    RequestsStay(s, act, c);
    if act == Step(c) {
      ReplayStep(s, c, t, legs);
    } else if act != Abort(c) {
      OthersMove(s, act, c);
    }
    hide Inv, DoStep, Lawful, WellFormed, LegsOf, Lag, FreshPostings, PostingRows;
  }

  lemma {:induction false} RunStaysOnRecord(s: State, acts: seq<Action>, c: Id, t: Txn, legs: seq<Entry>, aborted: bool)
    requires Inv(s) && IsRun(s, acts) && OnRecord(s, c, t, legs, aborted)
    ensures OnRecord(Run(s, acts), c, t, legs, aborted || Abort(c) in acts)
    ensures forall op <- History(s, acts) :: op.Serve? ==> op.id != c
    decreases |acts|
  {
    hide Inv, Next, Enabled, OnRecord, Committed;
    if acts != [] {
      NextKeeps(s, acts[0]);
      NextStaysOnRecord(s, acts[0], c, t, legs, aborted);
      RunStaysOnRecord(Next(s, acts[0]), acts[1..], c, t, legs, aborted || acts[0] == Abort(c));
      assert Abort(c) in acts <==> acts[0] == Abort(c) || Abort(c) in acts[1..];
    }
  }

  /** Replay: a well-formed request that arrives after its key was committed, in any run and
      whatever everybody else does, commits nothing.  When it is done it has been answered with
      the original transaction and its original legs, unless a call of the replay itself
      failed, and exactly then with a database error. */
  lemma {:induction false} ReplayReturnsTheOriginal(
    s: State, before: seq<Action>, c: Id, req: Request, after: seq<Action>, t: Txn)
    requires Init(s) && IsRun(s, before) && t in Run(s, before).db.txns && t.key == req.key && WellFormed(req)
    requires Enabled(Run(s, before), Arrive(c, req)) && IsRun(Next(Run(s, before), Arrive(c, req)), after)
    ensures var arrived := Next(Run(s, before), Arrive(c, req));
            var end := Run(arrived, after);
            && c in end.clients
            && (forall op <- History(arrived, after) :: op.Serve? ==> op.id != c)
            && (end.clients[c].pc.Done? ==>
                  end.clients[c].pc.outcome ==
                  if Abort(c) in after then Failed(DatabaseError)
                  else Responded(Response(t, LegsOf(Run(s, before).db.entries, t.id))))
  {
    var reached := Run(s, before);
    var arrived := Next(reached, Arrive(c, req));
    InitOk(s);
    RunKeeps(s, before);
    NextKeeps(reached, Arrive(c, req));
    Serialisability.Serialisable(s, before);
    EmptyLawful();
    HistoryLawful(EMPTY, History(s, before));
    hide Inv, Lawful;
    RunStaysOnRecord(arrived, after, c, t, LegsOf(reached.db.entries, t.id), false);
  }
}
