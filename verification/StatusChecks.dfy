/** The status check is made before the database transaction begins: exactly what it says about
    the account later on. */
module StatusChecks {
  import opened Common
  import opened Ledger
  import opened Engine
  import opened EngineInvariants
  import Idempotency
  import LexOrder

  /** The status that the last change of the account in these actions gave it, if any did. */
  function LastStatus(acts: seq<Action>, a: AccountId): Option<bool>
    decreases |acts|
  {
    if acts == [] then None
    else
      var later := LastStatus(acts[1..], a);
      if later.Some? then later
      else if acts[0].SetStatus? && acts[0].account == a then Some(acts[0].active) else None
  }

  /** What a run does to the status of an account. */
  predicate Follows(before: map<AccountId, bool>, change: Option<bool>, after: map<AccountId, bool>, a: AccountId) {
    match change
    case Some(active) => a in after && after[a] == active
    case None => (a in after <==> a in before) && (a in before ==> after[a] == before[a])
  }

  lemma {:induction false} NextFollows(s: State, act: Action, a: AccountId)
    requires Enabled(s, act)
    ensures Follows(s.accounts, LastStatus([act], a), Next(s, act).accounts, a)
  {
    if act.Step? { StepFrame(s, act.c); }
    hide DoStep, FreshPostings, PostingRows;
    assert [act][1..] == [] && LastStatus([], a) == None;
  }

  lemma {:induction false} RunFollows(s: State, acts: seq<Action>, a: AccountId)
    requires IsRun(s, acts)
    ensures Follows(s.accounts, LastStatus(acts, a), Run(s, acts).accounts, a)
    decreases |acts|
  {
    hide Next, Enabled;
    if acts != [] {
      NextFollows(s, acts[0], a);
      assert [acts[0]][1..] == [] && LastStatus([], a) == None;
      RunFollows(Next(s, acts[0]), acts[1..], a);
    }
  }

  /** A client that is done stays as it is. */
  lemma {:induction false} DoneStays(s: State, acts: seq<Action>, c: Id)
    requires IsRun(s, acts) && c in s.clients && s.clients[c].pc.Done?
    ensures c in Run(s, acts).clients && Run(s, acts).clients[c] == s.clients[c]
    decreases |acts|
  {
    hide Next;
    if acts != [] {
      Idempotency.OthersMove(s, acts[0], c);
      DoneStays(Next(s, acts[0]), acts[1..], c);
    }
  }

  /** A check that fails ends the client. */
  lemma {:induction false} CheckFailsOrPasses(s: State, c: Id)
    requires CanStep(s, c) && s.clients[c].pc.CheckingStatus?
    ensures var a := s.clients[c].req.Accounts()[s.clients[c].pc.i];
            c in DoStep(s, c).clients && (DoStep(s, c).clients[c].pc.Done? <==> !(a in s.accounts && s.accounts[a]))
  {
    hide Validate, LexOrder.Less, Blocked;
  }

  /** A client in its database transaction, and so a client about to commit, has an account
      that is not active exactly if the last change of its status since the client checked it
      made it so. */
  lemma {:induction false} InactiveIff(s: State, c: Id, acts: seq<Action>)
    requires CanStep(s, c) && s.clients[c].pc.CheckingStatus? && IsRun(DoStep(s, c), acts)
    requires c in Run(DoStep(s, c), acts).clients && InTx(Run(DoStep(s, c), acts).clients[c])
    ensures var a, end := s.clients[c].req.Accounts()[s.clients[c].pc.i], Run(DoStep(s, c), acts);
            a in end.accounts && (!end.accounts[a] <==> LastStatus(acts, a) == Some(false))
  {
    var a, t := s.clients[c].req.Accounts()[s.clients[c].pc.i], DoStep(s, c);
    CheckFailsOrPasses(s, c);
    StepFrame(s, c);
    hide DoStep, CanStep, Run, IsRun, LastStatus;
    RunFollows(t, acts, a);
    if t.clients[c].pc.Done? { DoneStays(t, acts, c); }
  }
}
