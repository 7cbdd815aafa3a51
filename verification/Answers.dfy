/** What a client is answered: in every interleaving, the transaction on record for its key. */
module Answers {
  import opened Common
  import opened Ledger
  import opened Engine
  import opened EngineInvariants
  import opened LedgerLaws
  import Idempotency
  import LexOrder
  import Serialisability

  predicate KeyAt(db: Tables, id: Id, key: Key) { exists t <- db.txns :: t.id == id && t.key == key }

  /** A client that reads its answer, or has it, reads the committed transaction of its key. */
  predicate AnswerOk(db: Tables, cl: Client) {
    match cl.pc
    case FetchingHeader(id) => KeyAt(db, id, cl.req.key)
    case FetchingLegs(header) => header in db.txns && header.key == cl.req.key
    case Done(Responded(r)) => r.txn in db.txns && r.txn.key == cl.req.key && r.legs == LegsOf(db.entries, r.txn.id)
    case _ => true
  }

  predicate AnswersOk(s: State) { forall c | c in s.clients :: AnswerOk(s.db, s.clients[c]) }

  /** An answer stays right whatever anybody does. */
  lemma {:induction false} AnswerStays(s: State, act: Action, cl: Client)
    requires Inv(s) && Enabled(s, act) && Lawful(s.db) && AnswerOk(s.db, cl)
    ensures AnswerOk(Next(s, act).db, cl)
  {
    hide Inv, Enabled, Next, Lawful, LegsOf;
    match cl.pc
    case FetchingHeader(id) =>
      var t :| t in s.db.txns && t.id == id && t.key == cl.req.key;
      Idempotency.RecordStays(s, act, t);
    case FetchingLegs(header) => Idempotency.RecordStays(s, act, header);
    case Done(Responded(r)) => Idempotency.RecordStays(s, act, r.txn);
    case _ =>
  }

  lemma {:induction false} CommitsItsKey(s: State, c: Id)
    requires Inv(s) && CanStep(s, c) && s.clients[c].pc.Committing?
    ensures KeyAt(Append(s.db, CommitRows(s.clients[c])), c, s.clients[c].req.key)
  {
    var cl := s.clients[c];
    Serialisability.CommittingFacts(s, c, cl);
    Serialisability.CommitRowsShape(c, cl);
    hide Inv, ShapeOk, Acceptable, Covered, Storable, CanStep, DebitLeg, CreditLeg;
    var t := Header(c, cl.req, Settled);
    assert CommitRows(cl).txns == [t];
    assert t in Append(s.db, CommitRows(cl)).txns;
  }

  lemma {:induction false} CommitAnswers(s: State, c: Id)
    requires Inv(s) && CanStep(s, c) && s.clients[c].pc.Committing?
    ensures c in DoStep(s, c).clients && AnswerOk(DoStep(s, c).db, DoStep(s, c).clients[c])
  {
    CommitsItsKey(s, c);
    hide Inv, KeyAt, Append, CommitRows, Release, Validate, Blocked;
  }

  lemma {:induction false} CheckKeyAnswers(s: State, c: Id)
    requires CanStep(s, c) && s.clients[c].pc.CheckingKey?
    ensures c in DoStep(s, c).clients && AnswerOk(DoStep(s, c).db, DoStep(s, c).clients[c])
  {
    hide LegsOf, Validate, Blocked;
    var existing := FindKey(s.db.txns, s.clients[c].req.key);
    if existing.Some? { assert existing.value in s.db.txns; }
  }

  lemma {:induction false} FetchAnswers(s: State, c: Id)
    requires CanStep(s, c) && Lawful(s.db) && AnswerOk(s.db, s.clients[c])
    requires s.clients[c].pc.FetchingHeader? || s.clients[c].pc.FetchingLegs?
    ensures c in DoStep(s, c).clients && AnswerOk(DoStep(s, c).db, DoStep(s, c).clients[c])
  {
    hide LegsOf, Validate, Blocked, Solvent, Booked, FindId, FindKey;
    if s.clients[c].pc.FetchingHeader? {
      var t :| t in s.db.txns && t.id == s.clients[c].pc.id && t.key == s.clients[c].req.key;
      Idempotency.FindUnique(s.db.txns, t);
    }
  }

  /** The steps in between answer nothing. */
  lemma {:induction false} OtherSteps(s: State, c: Id)
    requires CanStep(s, c) && !s.clients[c].pc.CheckingKey? && Phase(s.clients[c].pc) < 10
    ensures c in DoStep(s, c).clients && AnswerOk(DoStep(s, c).db, DoStep(s, c).clients[c])
  {
    hide Validate, LexOrder.Less, FindKey, FindId, LegsOf, KeyUsed, DebitLeg, CreditLeg, Storable, Balance, Covered,
         SettledEvent, CommitRows, Append, Goto, Release, Blocked;
  }

  lemma {:induction false} StepAnswers(s: State, c: Id)
    requires Inv(s) && Lawful(s.db) && CanStep(s, c) && AnswerOk(s.db, s.clients[c])
    ensures c in DoStep(s, c).clients && AnswerOk(DoStep(s, c).db, DoStep(s, c).clients[c])
  {
    var cl := s.clients[c];
    if cl.pc.CheckingKey? {
      CheckKeyAnswers(s, c);
    } else if cl.pc.Committing? {
      CommitAnswers(s, c);
    } else if cl.pc.FetchingHeader? || cl.pc.FetchingLegs? {
      FetchAnswers(s, c);
    } else {
      OtherSteps(s, c);
    }
    hide DoStep, Inv, Lawful, AnswerOk;
  }

  lemma {:induction false} OneAnswers(s: State, act: Action, c: Id)
    requires Inv(s) && Enabled(s, act) && Lawful(s.db) && AnswersOk(s) && c in Next(s, act).clients
    ensures AnswerOk(Next(s, act).db, Next(s, act).clients[c])
  {
    hide Inv, Lawful, AnswerOk, DoStep, FreshPostings, PostingRows, Append;
    if act == Step(c) {
      StepAnswers(s, c);
    } else if act == Abort(c) || (act.Arrive? && act.c == c) {
      NewAndAborted(s, act, c);
    } else {
      ClientsStay(s, act, c);
      Idempotency.OthersMove(s, act, c);
      AnswerStays(s, act, s.clients[c]);
    }
  }

  lemma {:induction false} ClientsStay(s: State, act: Action, c: Id)
    requires Enabled(s, act) && c in Next(s, act).clients && !(act.Arrive? && act.c == c)
    ensures c in s.clients
  {
    if act.Step? { StepClientsFrame(s, act.c); }
    hide DoStep, FreshPostings, PostingRows, Append, Validate, Blocked;
  }

  lemma {:induction false} NextAnswers(s: State, act: Action)
    requires Inv(s) && Enabled(s, act) && Lawful(s.db) && AnswersOk(s)
    ensures AnswersOk(Next(s, act))
  {
    hide Inv, Lawful, AnswerOk, Next, Enabled;
    forall c | c in Next(s, act).clients ensures AnswerOk(Next(s, act).db, Next(s, act).clients[c]) {
      OneAnswers(s, act, c);
    }
  }

  lemma {:induction false} NewAndAborted(s: State, act: Action, c: Id)
    requires Enabled(s, act) && c in Next(s, act).clients && (act == Abort(c) || (act.Arrive? && act.c == c))
    ensures AnswerOk(Next(s, act).db, Next(s, act).clients[c])
  {
  }

  lemma {:induction false} NextIsLawful(s: State, act: Action)
    requires Inv(s) && Enabled(s, act) && Lawful(s.db)
    ensures Lawful(Next(s, act).db)
  {
    hide Inv, Enabled, Next, Solvent, UniqueHeaders, Booked;
    Serialisability.NextIsAtomic(s, act);
    HistoryLawful(s.db, Committed(s, act));
  }

  lemma {:induction false} RunAnswers(s: State, acts: seq<Action>)
    requires Inv(s) && Lawful(s.db) && AnswersOk(s) && IsRun(s, acts)
    ensures AnswersOk(Run(s, acts)) && Lawful(Run(s, acts).db)
    decreases |acts|
  {
    hide Inv, Enabled, Next, Lawful, AnswersOk;
    if acts != [] {
      NextKeeps(s, acts[0]);
      NextAnswers(s, acts[0]);
      NextIsLawful(s, acts[0]);
      RunAnswers(Next(s, acts[0]), acts[1..]);
    }
  }

  /** In every reachable state an answered client has been given the committed transaction of
      its key with exactly its legs; and if its own transaction is the one committed, that one. */
  lemma {:induction false} AnsweredFromRecord(start: State, acts: seq<Action>, c: Id)
    requires Init(start) && IsRun(start, acts) && c in Run(start, acts).clients
    requires Run(start, acts).clients[c].pc.Done? && Run(start, acts).clients[c].pc.outcome.Responded?
    ensures var s := Run(start, acts);
            var req, r := s.clients[c].req, s.clients[c].pc.outcome.response;
            && r.txn in s.db.txns && r.txn.key == req.key && r.legs == LegsOf(s.db.entries, r.txn.id)
            && (Header(c, req, Settled) in s.db.txns ==> r.txn == Header(c, req, Settled))
  {
    hide Inv, Solvent, Booked, UniqueHeaders, LegsOf;
    var s := Run(start, acts);
    InitOk(start);
    EmptyLawful();
    RunAnswers(start, acts);
    assert AnswerOk(s.db, s.clients[c]);
    var req, r := s.clients[c].req, s.clients[c].pc.outcome.response;
    if Header(c, req, Settled) in s.db.txns { SameKeySameTxn(s.db, r.txn, Header(c, req, Settled)); }
  }
}
