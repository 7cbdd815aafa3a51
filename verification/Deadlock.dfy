/** Waiting: no cycle can form, somebody can always move, and every schedule ends. */
module Deadlock {
  import opened Common
  import opened Ledger
  import opened Engine
  import opened EngineInvariants
  import LexOrder

  /** Client `c` waits until `d` gives up an account lock or an uncommitted key. */
  predicate WaitsFor(s: State, c: Id, d: Id) {
    && Unfinished(s, c) && Sane(s.clients[c]) && Blocked(s, c)
    && d == (if s.clients[c].pc.Locking? then s.locks[Wanted(s.clients[c])] else s.keys[s.clients[c].req.key])
  }

  /** The account a client is about to lock. */
  function Wanted(cl: Client): AccountId
    requires Sane(cl) && cl.pc.Locking?
  {
    cl.req.LockOrder()[cl.pc.i]
  }

  predicate WantsAccount(s: State, c: Id) {
    c in s.clients && Sane(s.clients[c]) && s.clients[c].pc.Locking?
  }

  lemma {:induction false} ClientFacts(s: State, c: Id)
    requires Inv(s) && c in s.clients
    ensures ClientOk(s, c, s.clients[c]) && Sane(s.clients[c])
  {
    hide ClientOk;
  }

  /** The two accounts of a transfer are locked in ascending order. */
  lemma {:induction false} LockOrderAscends(req: Request)
    requires WellFormed(req)
    ensures 1 <= |req.LockOrder()| <= 2
    ensures |req.LockOrder()| == 2 ==> LexOrder.Less(req.LockOrder()[0], req.LockOrder()[1])
  {
    if req.TransferRequest? { LexOrder.Trichotomy(req.from, req.to); }
    hide LexOrder.Less;
  }

  /** A client's locks and key, given what it holds. */
  lemma {:induction false} HolderFacts(s: State, d: Id)
    requires Inv(s) && d in s.clients
    ensures Sane(s.clients[d]) && HoldsOk(s.locks, s.keys, d, s.clients[d])
  {
    ClientFacts(s, d);
    hide Inv, HoldsOk;
  }

  /** A client holding an account lock is unfinished, and wants only accounts above it. */
  lemma {:induction false} LockHolder(d: Id, cl: Client, a: AccountId)
    requires Sane(cl) && a in Held(cl)
    ensures !cl.pc.Done? && (cl.pc.Locking? ==> LexOrder.Less(a, Wanted(cl)))
  {
    if cl.pc.Locking? { LockOrderAscends(cl.req); }
    hide LexOrder.Less, Validate;
  }

  lemma {:induction false} HoldersAreClients(s: State, c: Id, d: Id)
    requires Inv(s) && WaitsFor(s, c, d)
    ensures d in s.clients
  {
    hide ClientOk, WellFormed, LexOrder.Less;
  }

  /** Whoever is waited for is unfinished; if it waits for an account too, it waits higher
      up; and the holder of an uncommitted key waits for nothing. */
  lemma {:induction false} HolderIsAhead(s: State, c: Id, d: Id)
    requires Inv(s) && WaitsFor(s, c, d)
    ensures Unfinished(s, d) && Sane(s.clients[d])
    ensures s.clients[c].pc.Locking? && s.clients[d].pc.Locking? ==>
              LexOrder.Less(Wanted(s.clients[c]), Wanted(s.clients[d]))
    ensures s.clients[c].pc.InsertingHeader? ==> !Blocked(s, d)
  {
    hide Inv, LexOrder.Less, WellFormed, Held;
    HoldersAreClients(s, c, d);
    HolderFacts(s, d);
    var cl, other := s.clients[c], s.clients[d];
    if cl.pc.Locking? {
      assert Owns(s.locks, Wanted(cl), d);
      LockHolder(d, other, Wanted(cl));
    } else {
      assert Owns(s.keys, cl.req.key, d);
      assert HoldsKey(other);
    }
  }

  /** A path through the wait-for graph. */
  predicate IsWaitPath(s: State, path: seq<Id>) {
    |path| >= 2 && forall i | 0 <= i < |path| - 1 :: WaitsFor(s, path[i], path[i + 1])
  }

  /** Along a path the accounts wanted only go up. */
  lemma {:induction false} PathAscends(s: State, path: seq<Id>)
    requires Inv(s) && IsWaitPath(s, path) && WantsAccount(s, path[0])
    ensures WantsAccount(s, path[|path| - 1]) && Blocked(s, path[|path| - 1]) ==>
              LexOrder.Less(Wanted(s.clients[path[0]]), Wanted(s.clients[path[|path| - 1]]))
    decreases |path|
  {
    hide Inv, Sane, LexOrder.Less, Wanted;
    var first, second, rest := path[0], path[1], path[1..];
    assert WaitsFor(s, first, second);
    HolderIsAhead(s, first, second);
    if |path| > 2 {
      assert WaitsFor(s, second, path[2]);
      assert IsWaitPath(s, rest) by {
        forall i | 0 <= i < |rest| - 1 ensures WaitsFor(s, rest[i], rest[i + 1]) {
          assert WaitsFor(s, path[i + 1], path[i + 2]);
        }
      }
      if s.clients[second].pc.Locking? {
        PathAscends(s, rest);
        if WantsAccount(s, path[|path| - 1]) && Blocked(s, path[|path| - 1]) {
          LexOrder.Transitive(Wanted(s.clients[first]), Wanted(s.clients[second]),
                              Wanted(s.clients[path[|path| - 1]]));
        }
      } else {
        assert |path| > 3 ==> WaitsFor(s, path[2], path[3]);
        HolderIsAhead(s, second, path[2]);
      }
    }
  }

  /** No cycle in the wait-for graph over accounts and keys, in any reachable state. */
  lemma {:induction false} NoWaitCycle(s: State, path: seq<Id>)
    requires Inv(s) && IsWaitPath(s, path)
    ensures path[0] != path[|path| - 1]
  {
    hide Inv, Sane, LexOrder.Less, Wanted;
    var first, last := path[0], path[|path| - 1];
    assert WaitsFor(s, first, path[1]);
    if s.clients[first].pc.Locking? {
      PathAscends(s, path);
      if first == last { LexOrder.Irreflexive(Wanted(s.clients[first])); }
    } else {
      assert |path| > 2 ==> WaitsFor(s, path[1], path[2]);
      HolderIsAhead(s, first, path[1]);
    }
  }

  function LockedAbove(s: State, a: AccountId): set<AccountId> {
    set x | x in s.locks && LexOrder.Less(a, x)
  }

  lemma {:induction false} LockedAboveShrinks(s: State, a: AccountId, b: AccountId)
    requires LexOrder.Less(a, b) && b in s.locks
    ensures LockedAbove(s, b) < LockedAbove(s, a)
  {
    LexOrder.Irreflexive(b);
    forall x | x in LockedAbove(s, b) ensures x in LockedAbove(s, a) {
      LexOrder.Transitive(a, b, x);
    }
    hide LexOrder.Less;
    assert b in LockedAbove(s, a) && b !in LockedAbove(s, b);
  }

  /** Following who waits for whom ends at a client that can move. */
  lemma {:induction false} SomebodyCanStepFrom(s: State, c: Id) returns (d: Id)
    requires Inv(s) && Unfinished(s, c)
    ensures CanStep(s, d)
    decreases if WantsAccount(s, c) then 0 else 1,
              if WantsAccount(s, c) then LockedAbove(s, Wanted(s.clients[c])) else {}
  {
    ClientFacts(s, c);
    hide Inv, ClientOk, LexOrder.Less, LockedAbove;
    if !Blocked(s, c) {
      d := c;
    } else if s.clients[c].pc.InsertingHeader? {
      d := s.keys[s.clients[c].req.key];
      HolderIsAhead(s, c, d);
    } else {
      var next := s.locks[Wanted(s.clients[c])];
      HolderIsAhead(s, c, next);
      if !Blocked(s, next) {
        d := next;
      } else if s.clients[next].pc.InsertingHeader? {
        d := s.keys[s.clients[next].req.key];
        HolderIsAhead(s, next, d);
      } else {
        LockedAboveShrinks(s, Wanted(s.clients[c]), Wanted(s.clients[next]));
        d := SomebodyCanStepFrom(s, next);
      }
    }
  }

  /** Deadlock freedom: while any client is unfinished, some client can move. */
  lemma {:induction false} NoDeadlock(s: State, acts: seq<Action>)
    requires Init(s) && IsRun(s, acts) && exists c :: Unfinished(Run(s, acts), c)
    ensures exists d :: CanStep(Run(s, acts), d)
  {
    InitOk(s);
    RunKeeps(s, acts);
    var c :| Unfinished(Run(s, acts), c);
    var d := SomebodyCanStepFrom(Run(s, acts), c);
  }

  // ---------- Every schedule ends ----------

  /** An upper bound on the steps a client still has to take. */
  function WorkLeft(pc: PC): nat {
    3 * (13 - Phase(pc)) + (if (pc.CheckingStatus? || pc.Locking?) && pc.i < 2 then 2 - pc.i else 0)
  }

  function TotalWork(s: State, ids: seq<Id>): nat {
    if ids == [] then 0
    else (if ids[0] in s.clients then WorkLeft(s.clients[ids[0]].pc) else 0) + TotalWork(s, ids[1..])
  }

  /** Before the database transaction. */
  lemma {:induction false} EarlyStepWorks(s: State, c: Id)
    requires CanStep(s, c) && Phase(s.clients[c].pc) < 3
    ensures c in DoStep(s, c).clients && WorkLeft(DoStep(s, c).clients[c].pc) < WorkLeft(s.clients[c].pc)
  {
    hide Validate, LexOrder.Less, FindKey, Goto, Release, Blocked,
         GrantLock, InsertHeader, InsertLeg, Settle, InsertEvent, Commit, FetchHeader, FetchLegs, CheckFunds;
  }

  lemma {:induction false} LockStepWorks(s: State, c: Id)
    requires CanStep(s, c) && s.clients[c].pc.Locking?
    ensures c in DoStep(s, c).clients && WorkLeft(DoStep(s, c).clients[c].pc) < WorkLeft(s.clients[c].pc)
  {
    hide Validate, LexOrder.Less, Goto, Balance, Blocked;
    LockOrderAscends(s.clients[c].req);
  }

  lemma {:induction false} LateStepWorks(s: State, c: Id)
    requires CanStep(s, c) && Phase(s.clients[c].pc) > 3
    ensures c in DoStep(s, c).clients && WorkLeft(DoStep(s, c).clients[c].pc) < WorkLeft(s.clients[c].pc)
  {
    hide Validate, LexOrder.Less, FindId, LegsOf, KeyUsed, DebitLeg, CreditLeg, Storable, Covered, SettledEvent,
         CommitRows, Append, Goto, Release, Blocked, GrantLock, CheckRequest, CheckKey, CheckStatus;
  }

  lemma {:induction false} StepDoesWork(s: State, c: Id)
    requires CanStep(s, c)
    ensures c in DoStep(s, c).clients && WorkLeft(DoStep(s, c).clients[c].pc) < WorkLeft(s.clients[c].pc)
  {
    hide DoStep, WorkLeft, CanStep;
    CanStepIsClient(s, c);
    if Phase(s.clients[c].pc) < 3 {
      EarlyStepWorks(s, c);
    } else if s.clients[c].pc.Locking? {
      LockStepWorks(s, c);
    } else {
      LateStepWorks(s, c);
    }
  }

  lemma {:induction false} TotalWorkDrops(s: State, t: State, ids: seq<Id>, c: Id)
    requires OthersStay(s, t, c) && c in s.clients && WorkLeft(t.clients[c].pc) < WorkLeft(s.clients[c].pc)
    ensures TotalWork(t, ids) <= TotalWork(s, ids)
    ensures c in ids ==> TotalWork(t, ids) < TotalWork(s, ids)
  {
    hide WorkLeft;
    if ids != [] { TotalWorkDrops(s, t, ids[1..], c); }
  }

  predicate AllListed(s: State, ids: seq<Id>) { forall c | c in s.clients :: c in ids }

  predicate OnlySteps(acts: seq<Action>) { forall act <- acts :: act.Step? }

  /** However the clients are scheduled, they take no more than their total work in steps. */
  lemma {:induction false} SchedulesAreBounded(s: State, acts: seq<Action>, ids: seq<Id>)
    requires IsRun(s, acts) && OnlySteps(acts) && AllListed(s, ids)
    ensures |acts| <= TotalWork(s, ids)
    decreases |acts|
  {
    if acts != [] {
      assert acts[0] in acts;
      var c := acts[0].c;
      var t := Next(s, acts[0]);
      StepDoesWork(s, c);
      StepClientsFrame(s, c);
      TotalWorkDrops(s, t, ids, c);
      hide Next, WorkLeft, TotalWork, DoStep, CanStep;
      SchedulesAreBounded(t, acts[1..], ids);
    }
  }

  /** From every reachable state the clients can all be run to the end, with no abort. */
  lemma {:induction false} EverybodyCanFinish(s: State, ids: seq<Id>) returns (acts: seq<Action>)
    requires Inv(s) && AllListed(s, ids)
    ensures IsRun(s, acts) && OnlySteps(acts)
    ensures forall c :: !Unfinished(Run(s, acts), c)
    decreases TotalWork(s, ids)
  {
    hide Inv, WorkLeft, TotalWork, DoStep, CanStep;
    if exists c :: Unfinished(s, c) {
      var c :| Unfinished(s, c);
      var d := SomebodyCanStepFrom(s, c);
      var t := DoStep(s, d);
      assert CanStep(s, d) && Enabled(s, Step(d)) && Next(s, Step(d)) == t;
      StepDoesWork(s, d);
      StepClientsFrame(s, d);
      CanStepIsClient(s, d);
      TotalWorkDrops(s, t, ids, d);
      NextKeeps(s, Step(d));
      var rest := EverybodyCanFinish(t, ids);
      acts := [Step(d)] + rest;
      assert acts[0] == Step(d) && acts[1..] == rest;
      assert IsRun(s, acts) && Run(s, acts) == Run(t, rest);
    } else {
      acts := [];
    }
  }

  lemma {:induction false} CanStepIsClient(s: State, c: Id)
    requires CanStep(s, c)
    ensures c in s.clients
  {
  }
}
