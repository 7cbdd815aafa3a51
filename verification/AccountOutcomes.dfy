/** How every account operation ends under interleaving: what a commit writes, and exactly when
    each error is the outcome. */
module AccountOutcomes {
  import opened Common
  import opened AccountProtocol

  // ---------- What a commit writes ----------

  /** A committed opening adds the new account; a committed freeze or close changes nothing but
      standing and version, and a freeze only an active account.  Each adds its event. */
  lemma {:induction false} CommitWrites(s: State, c: ClientId, ok: bool)
    requires Inv(s) && Enabled(s, Step(c, ok)) && s.clients[c].pc.Committing?
    ensures var t, a := Next(s, Step(c, ok)), s.clients[c].account;
            match s.clients[c].task
            case Create(details) =>
              && a !in s.rows && t.rows == s.rows[a := Row(details, Active, 1)]
              && t.outbox == s.outbox + [Event(Created, a)]
            case Freeze =>
              && a in s.rows && s.rows[a].standing == Active
              && t.rows == s.rows[a := Row(s.rows[a].details, Frozen, s.rows[a].version + 1)]
              && t.outbox == s.outbox + [Event(WasFrozen, a)]
            case Close =>
              && a in s.rows
              && t.rows == s.rows[a := Row(s.rows[a].details, Closed, s.rows[a].version + 1)]
              && t.outbox == s.outbox + [Event(WasClosed, a)]
            case Get => false
  {
    assert ClientOk(s, c, s.clients[c]);
    StepRows(s, c, s.clients[c], ok);
    hide DoStep, RowsOk, LocksOk, CreatesOk, HoldsLock, Blocked;
  }

  /** Nothing else writes to the tables. */
  lemma {:induction false} OnlyCommitsWrite(s: State, act: Action)
    requires Inv(s) && Enabled(s, act) && !(act.Step? && s.clients[act.c].pc.Committing?)
    ensures Next(s, act).rows == s.rows && Next(s, act).outbox == s.outbox
  {
    if act.Step? {
      assert ClientOk(s, act.c, s.clients[act.c]);
      StepRows(s, act.c, s.clients[act.c], act.ok);
    }
    hide DoStep, Inv, Unlock;
  }

  // ---------- When an operation fails ----------

  /** The action makes client `c` fail with `e`. */
  predicate FailsBy(s: State, act: Action, c: ClientId, e: Failure) {
    match act
    case Abort(d) => d == c && e == DatabaseError
    case Step(d, ok) => d == c && c in s.clients && StepFails(s, s.clients[c], ok, e)
    case _ => false
  }

  /** A close fails on its balance before anything else; a freeze fails on an account that is
      not active; everything but an opening fails on an account that does not exist. */
  predicate StepFails(s: State, cl: Client, ok: bool, e: Failure) {
    match cl.pc
    case CheckingBalance => !ok && e == NonZeroBalance
    case Locking => cl.account !in s.rows && e == NotFound
    case Updating(_) => cl.task.Freeze? && cl.account in s.rows && s.rows[cl.account].standing != Active && e == NotActive
    case Fetching => cl.account !in s.rows && e == NotFound
    case _ => false
  }

  predicate FailedWith(s: State, c: ClientId, e: Failure) { c in s.clients && s.clients[c].pc == Failed(e) }

  lemma {:induction false} OwnStepFailsIff(s: State, c: ClientId, ok: bool, e: Failure)
    requires c in s.clients && ClientOk(s, c, s.clients[c]) && !Done(s.clients[c].pc) && !Blocked(s, s.clients[c])
    ensures FailedWith(DoStep(s, c, s.clients[c], ok), c, e) <==> StepFails(s, s.clients[c], ok, e)
  {
    hide Unlock, StagedOk, CommitOk, OnceTrue, HoldsLock;
  }

  lemma {:induction false} StepFailsIff(s: State, d: ClientId, ok: bool, c: ClientId, e: Failure)
    requires Inv(s) && Enabled(s, Step(d, ok))
    ensures FailedWith(Next(s, Step(d, ok)), c, e) <==> FailedWith(s, c, e) || FailsBy(s, Step(d, ok), c, e)
  {
    assert ClientOk(s, d, s.clients[d]);
    hide DoStep, Inv, ClientOk, Blocked, StepFails;
    StepFramed(s, d, ok);
    if c == d { OwnStepFailsIff(s, c, ok, e); }
  }

  lemma {:induction false} NextFailsIff(s: State, act: Action, c: ClientId, e: Failure)
    requires Inv(s) && Enabled(s, act)
    ensures FailedWith(Next(s, act), c, e) <==> FailedWith(s, c, e) || FailsBy(s, act, c, e)
  {
    if act.Step? { StepFailsIff(s, act.c, act.ok, c, e); }
    hide DoStep, Inv, Unlock, StepFails;
  }

  /** Some action of the run makes client `c` fail with `e`. */
  predicate FailsIn(s: State, acts: seq<Action>, c: ClientId, e: Failure)
    requires IsRun(s, acts)
    decreases |acts|
  {
    acts != [] && (FailsBy(s, acts[0], c, e) || FailsIn(Next(s, acts[0]), acts[1..], c, e))
  }

  lemma {:induction false} RunFailsIff(s: State, acts: seq<Action>, c: ClientId, e: Failure)
    requires Inv(s) && IsRun(s, acts)
    ensures FailedWith(Run(s, acts), c, e) <==> FailedWith(s, c, e) || FailsIn(s, acts, c, e)
    decreases |acts|
  {
    hide Inv, Next, Enabled, FailsBy, FailedWith;
    if acts != [] {
      NextKeeps(s, acts[0]);
      NextFailsIff(s, acts[0], c, e);
      RunFailsIff(Next(s, acts[0]), acts[1..], c, e);
    }
  }

  /** Whatever everybody else does, a client has failed with `e` exactly if one of its own steps
      met the condition of that error, or a call of its own failed. */
  lemma {:induction false} FailedIff(acts: seq<Action>, c: ClientId, e: Failure)
    requires IsRun(START, acts)
    ensures (c in Run(START, acts).clients && Run(START, acts).clients[c].pc == Failed(e)) <==> FailsIn(START, acts, c, e)
  {
    hide Next, Enabled, IsRun, Run, FailsIn, HistoryOk, CopiesOk;
    StartOk();
    RunFailsIff(START, acts, c, e);
  }
}
