/** The outbox publisher: each poll takes the oldest eligible events, at most a batch of
    them, sends every one and marks it published; when marking fails the retry count goes
    up, and an event that has failed too often is left alone. */
module Publisher {

  const MAX_RETRY: nat := 5
  const BATCH: nat := 50

  /** An outbox row.  `sends` counts how often the event went to the broker. */
  datatype Row = Row(published: bool, retries: nat, sends: nat)

  /** What happens when a sent event is marked: success, or a failure whose retry increment
      is itself recorded or lost. */
  datatype Outcome = Marked | Failed(counted: bool)

  predicate Eligible(r: Row) { !r.published && r.retries <= MAX_RETRY }

  function Attempt(r: Row, outcome: Outcome): Row {
    var sent := r.(sends := r.sends + 1);
    match outcome
    case Marked => sent.(published := true)
    case Failed(counted) => if counted then sent.(retries := sent.retries + 1) else sent
  }

  /** How many of the rows older than row `i` are eligible; rows are in creation order. */
  function OlderEligible(rows: seq<Row>, i: nat): nat
    requires i <= |rows|
  {
    if i == 0 then 0 else OlderEligible(rows, i - 1) + (if Eligible(rows[i - 1]) then 1 else 0)
  }

  /** Row `i` is in the batch of the next poll. */
  predicate Chosen(rows: seq<Row>, i: nat)
    requires i < |rows|
  {
    Eligible(rows[i]) && OlderEligible(rows, i) < BATCH
  }

  /** The table after one poll. */
  function Polled(rows: seq<Row>, outcome: nat -> Outcome): (after: seq<Row>)
    ensures |after| == |rows|
    ensures forall i | 0 <= i < |rows| ::
              after[i] == if Chosen(rows, i) then Attempt(rows[i], outcome(i)) else rows[i]
  {
    seq(|rows|, i requires 0 <= i < |rows| => if Chosen(rows, i) then Attempt(rows[i], outcome(i)) else rows[i])
  }

  class OutboxPublisher {
    var rows: seq<Row>

    constructor ()
      ensures rows == []
    {
      rows := [];
    }

    /** SELECT ... ORDER BY created_at LIMIT 50 */
    method SelectBatch() returns (batch: seq<nat>)
      ensures |batch| <= 50
      ensures forall j | 0 <= j < |batch| :: batch[j] < |rows| && Chosen(rows, batch[j])
      ensures forall j, k | 0 <= j < k < |batch| :: batch[j] < batch[k]
      ensures forall i | 0 <= i < |rows| && Chosen(rows, i) :: i in batch
    {
      batch := [];
      var i := 0;
      while i < |rows| && |batch| < BATCH
        invariant 0 <= i <= |rows|
        invariant |batch| == OlderEligible(rows, i) <= BATCH
        invariant forall j | 0 <= j < |batch| :: batch[j] < i && Chosen(rows, batch[j])
        invariant forall j, k | 0 <= j < k < |batch| :: batch[j] < batch[k]
        invariant forall j | 0 <= j < i && Chosen(rows, j) :: j in batch
      {
        if Eligible(rows[i]) { batch := batch + [i]; }
        i := i + 1;
      }
      forall j | 0 <= j < |rows| && Chosen(rows, j) ensures j in batch {
        if i <= j { OlderEligibleGrows(rows, i, j); }
      }
    }

    /** Send the event, then mark it published; false when marking failed. */
    method Publish(i: nat, outcome: Outcome) returns (ok: bool)
      requires i < |rows|
      modifies this
      ensures ok == outcome.Marked?
      ensures rows == old(rows)[i := old(rows)[i].(sends := old(rows)[i].sends + 1,
                                                   published := outcome.Marked? || old(rows)[i].published)]
    {
      rows := rows[i := rows[i].(sends := rows[i].sends + 1)];
      ok := outcome.Marked?;
      if ok { rows := rows[i := rows[i].(published := true)]; }
    }

    method IncrementRetry(i: nat, ok: bool)
      requires i < |rows|
      modifies this
      ensures rows == if ok then old(rows)[i := old(rows)[i].(retries := old(rows)[i].retries + 1)] else old(rows)
    {
      if ok { rows := rows[i := rows[i].(retries := rows[i].retries + 1)]; }
    }

    /** One poll: a failing event does not stop the ones after it. */
    method Poll(outcome: nat -> Outcome)
      modifies this
      ensures rows == Polled(old(rows), outcome)
      ensures forall i | 0 <= i < |rows| ::
                var was := old(rows)[i];
                rows[i] == if was.published || was.retries > 5 || OlderEligible(old(rows), i) >= 50 then was
                           else Row(outcome(i) == Marked, was.retries + (if outcome(i) == Failed(true) then 1 else 0),
                                    was.sends + 1)
    {
      var batch := SelectBatch();
      var j := 0;
      while j < |batch|
        invariant 0 <= j <= |batch| && |rows| == |old(rows)|
        invariant forall k | 0 <= k < j :: rows[batch[k]] == Attempt(old(rows)[batch[k]], outcome(batch[k]))
        invariant forall i | 0 <= i < |rows| && i !in batch[..j] :: rows[i] == old(rows)[i]
      {
        var i := batch[j];
        assert i !in batch[..j];
        var ok := Publish(i, outcome(i));
        if !ok { IncrementRetry(i, outcome(i).counted); }
        j := j + 1;
      }
      assert batch[..j] == batch;
      forall i | 0 <= i < |rows| ensures rows[i] == Polled(old(rows), outcome)[i] {
        if i in batch {
          var k :| 0 <= k < |batch| && batch[k] == i;
        }
      }
    }
  }

  lemma {:induction false} OlderEligibleGrows(rows: seq<Row>, i: nat, j: nat)
    requires i <= j <= |rows|
    ensures OlderEligible(rows, i) <= OlderEligible(rows, j)
  {
    if i < j { OlderEligibleGrows(rows, i, j - 1); }
  }

  // ---------- Runs ----------

  /** The outcome of marking row `i` at each poll, and the rows created after each poll. */
  datatype Env = Env(outcome: (nat, nat) -> Outcome, arrivals: nat -> seq<Row>)

  /** Every failure is recorded. */
  ghost predicate Counted(env: Env) {
    forall p: nat, i: nat :: env.outcome(p, i) != Failed(false)
  }

  ghost predicate NoArrivals(env: Env) { forall p: nat :: env.arrivals(p) == [] }

  /** Poll number `p`, and then new rows, which are younger than every row already there. */
  function PollThenArrive(rows: seq<Row>, env: Env, p: nat): (after: seq<Row>)
    ensures |after| == |rows| + |env.arrivals(p)|
    ensures forall i | 0 <= i < |rows| ::
              after[i] == if Chosen(rows, i) then Attempt(rows[i], env.outcome(p, i)) else rows[i]
    ensures forall i | |rows| <= i < |after| :: after[i] == env.arrivals(p)[i - |rows|]
  {
    Polled(rows, (i: nat) => env.outcome(p, i)) + env.arrivals(p)
  }

  /** The table after polls `p`, `p + 1`, ..., `p + n - 1`. */
  function After(rows: seq<Row>, env: Env, p: nat, n: nat): (after: seq<Row>)
    ensures |after| >= |rows|
    decreases n
  {
    if n == 0 then rows else After(PollThenArrive(rows, env, p), env, p + 1, n - 1)
  }

  // ---------- The potential: attempts still to be made ----------

  /** How many more attempts a row can take. */
  function Weight(r: Row): nat { if Eligible(r) then MAX_RETRY + 1 - r.retries else 0 }

  /** Attempts left in the rows older than row `i`. */
  function Potential(rows: seq<Row>, i: nat): nat
    requires i <= |rows|
  {
    if i == 0 then 0 else Potential(rows, i - 1) + Weight(rows[i - 1])
  }

  function Min(x: nat, y: nat): nat { if x <= y then x else y }

  lemma {:induction false} PotentialBounds(rows: seq<Row>, i: nat)
    requires i <= |rows|
    ensures OlderEligible(rows, i) <= Potential(rows, i) <= 6 * OlderEligible(rows, i)
  {
    if i > 0 { PotentialBounds(rows, i - 1); }
  }

  /** Failures of poll `p` on rows older than row `i` whose retry increment is lost. */
  function Lost(rows: seq<Row>, env: Env, p: nat, i: nat): (n: nat)
    requires i <= |rows|
    ensures n <= i
  {
    if i == 0 then 0
    else Lost(rows, env, p, i - 1) + (if Chosen(rows, i - 1) && env.outcome(p, i - 1) == Failed(false) then 1 else 0)
  }

  /** The same over polls `p`, `p + 1`, ..., `p + n - 1`. */
  function LostIn(rows: seq<Row>, env: Env, p: nat, i: nat, n: nat): nat
    requires i <= |rows|
    decreases n
  {
    if n == 0 then 0 else Lost(rows, env, p, i) + LostIn(PollThenArrive(rows, env, p), env, p + 1, i, n - 1)
  }

  /** A poll uses up one attempt of every older row in its batch, unless the increment is lost. */
  lemma {:induction false} PollSpends(rows: seq<Row>, env: Env, p: nat, i: nat)
    requires i <= |rows|
    ensures Potential(PollThenArrive(rows, env, p), i) + Min(BATCH, OlderEligible(rows, i))
         <= Potential(rows, i) + Lost(rows, env, p, i)
  {
    if i > 0 { PollSpends(rows, env, p, i - 1); }
  }

  /** With every failure recorded, nothing becomes eligible and each attempt is used up. */
  lemma {:induction false} PollUsesPotential(rows: seq<Row>, env: Env, p: nat, i: nat)
    requires i <= |rows| && Counted(env)
    ensures Potential(PollThenArrive(rows, env, p), i) + Min(BATCH, OlderEligible(rows, i)) <= Potential(rows, i)
    ensures OlderEligible(PollThenArrive(rows, env, p), i) <= OlderEligible(rows, i)
  {
    NothingLost(rows, env, p, i);
    PollSpends(rows, env, p, i);
    FewerEligible(rows, env, p, i);
  }

  lemma {:induction false} FewerEligible(rows: seq<Row>, env: Env, p: nat, i: nat)
    requires i <= |rows|
    ensures OlderEligible(PollThenArrive(rows, env, p), i) <= OlderEligible(rows, i)
  {
    if i > 0 { FewerEligible(rows, env, p, i - 1); }
  }

  lemma {:induction false} NothingLost(rows: seq<Row>, env: Env, p: nat, i: nat)
    requires i <= |rows| && Counted(env)
    ensures Lost(rows, env, p, i) == 0
  {
    if i > 0 {
      assert env.outcome(p, i - 1) != Failed(false);
      NothingLost(rows, env, p, i - 1);
    }
  }

  lemma {:induction false} NothingLostIn(rows: seq<Row>, env: Env, p: nat, i: nat, n: nat)
    requires i <= |rows| && Counted(env)
    ensures LostIn(rows, env, p, i, n) == 0
    decreases n
  {
    NothingLost(rows, env, p, i);
    if n > 0 { NothingLostIn(PollThenArrive(rows, env, p), env, p + 1, i, n - 1); }
  }

  lemma {:induction false} UnchosenStays(rows: seq<Row>, env: Env, p: nat, i: nat)
    requires i < |rows| && !Chosen(rows, i)
    ensures i < |PollThenArrive(rows, env, p)| && PollThenArrive(rows, env, p)[i] == rows[i]
  {
  }

  // ---------- No starvation ----------

  /** Row `i` is left alone by polls `p`, ..., `p + n - 1` and is in the batch of poll `p + n`. */
  predicate FirstTaken(rows: seq<Row>, env: Env, p: nat, i: nat, n: nat)
    requires i < |rows|
  {
    && (forall m | 0 <= m <= n :: i < |After(rows, env, p, m)| && After(rows, env, p, m)[i] == rows[i])
    && (forall m | 0 <= m < n :: !Chosen(After(rows, env, p, m), i))
    && Chosen(After(rows, env, p, n), i)
  }

  /** The poll that takes a row sends it, and then publishes it or counts the failure. */
  lemma {:induction false} TakenIsSent(rows: seq<Row>, env: Env, p: nat, i: nat, n: nat)
    requires i < |rows| && FirstTaken(rows, env, p, i, n)
    ensures i < |After(rows, env, p, n + 1)|
    ensures After(rows, env, p, n + 1)[i]
         == Row(env.outcome(p + n, i) == Marked,
                rows[i].retries + (if env.outcome(p + n, i) == Failed(true) then 1 else 0), rows[i].sends + 1)
  {
    AfterOneMore(rows, env, p, n);
    assert After(rows, env, p, n)[i] == rows[i] && Chosen(After(rows, env, p, n), i);
    hide OlderEligible;
  }

  /** What holds of the polls after an unsuccessful one holds of all of them. */
  lemma {:induction false} LaterAttempt(rows: seq<Row>, env: Env, p: nat, i: nat, rest: nat)
    requires i < |rows| && !Chosen(rows, i) && FirstTaken(PollThenArrive(rows, env, p), env, p + 1, i, rest)
    requires PollThenArrive(rows, env, p)[i] == rows[i]
    ensures FirstTaken(rows, env, p, i, rest + 1)
  {
    var next, q, n := PollThenArrive(rows, env, p), p + 1, rest + 1;
    forall m | 0 <= m <= n
      ensures i < |After(rows, env, p, m)| && After(rows, env, p, m)[i] == rows[i]
      ensures m < n ==> !Chosen(After(rows, env, p, m), i)
    {
      if m > 0 { assert After(rows, env, p, m) == After(next, env, q, m - 1); }
    }
    assert After(rows, env, p, n) == After(next, env, q, rest);
  }

  /** A row still waiting after `n` polls has seen a full batch of older attempts at each. */
  lemma {:induction false} TakenFrom(rows: seq<Row>, env: Env, p: nat, i: nat, n: nat) returns (m: nat)
    requires i < |rows| && Eligible(rows[i])
    requires BATCH * n > Potential(rows, i) + LostIn(rows, env, p, i, n)
    ensures m < n && FirstTaken(rows, env, p, i, m)
    decreases n
  {
    if Chosen(rows, i) {
      m := 0;
    } else {
      PotentialBounds(rows, i);
      PollSpends(rows, env, p, i);
      UnchosenStays(rows, env, p, i);
      var rest := TakenFrom(PollThenArrive(rows, env, p), env, p + 1, i, n - 1);
      LaterAttempt(rows, env, p, i, rest);
      m := rest + 1;
    }
  }

  /** Waiting costs attempts: an eligible event with `k` older eligible events is attempted at
      one of the first `n` polls as soon as 50n exceeds 6k and the retry increments older
      events lose in those polls, whatever fails and whatever arrives. */
  lemma {:induction false} TakenWithin(rows: seq<Row>, env: Env, i: nat, n: nat) returns (m: nat)
    requires i < |rows| && Eligible(rows[i])
    requires 50 * n > 6 * OlderEligible(rows, i) + LostIn(rows, env, 0, i, n)
    ensures m < n && FirstTaken(rows, env, 0, i, m)
  {
    PotentialBounds(rows, i);
    m := TakenFrom(rows, env, 0, i, n);
  }

  /** So if older events lose at most `lost` increments in the first floor((6k + lost) / 50) + 1
      polls, the event is first attempted at one of them. */
  lemma {:induction false} AttemptedWithin(rows: seq<Row>, env: Env, i: nat, lost: nat) returns (poll: nat)
    requires i < |rows| && Eligible(rows[i])
    requires LostIn(rows, env, 0, i, (6 * OlderEligible(rows, i) + lost) / 50 + 1) <= lost
    ensures 1 <= poll <= (6 * OlderEligible(rows, i) + lost) / 50 + 1
    ensures FirstTaken(rows, env, 0, i, poll - 1)
  {
    var m := TakenWithin(rows, env, i, (6 * OlderEligible(rows, i) + lost) / 50 + 1);
    poll := m + 1;
  }

  /** No starvation: with every failure recorded the bound is floor(6k / 50) + 1 polls. */
  lemma {:induction false} NoStarvation(rows: seq<Row>, env: Env, i: nat) returns (poll: nat)
    requires Counted(env) && i < |rows| && Eligible(rows[i])
    ensures 1 <= poll <= 6 * OlderEligible(rows, i) / 50 + 1
    ensures FirstTaken(rows, env, 0, i, poll - 1)
  {
    NothingLostIn(rows, env, 0, i, 6 * OlderEligible(rows, i) / 50 + 1);
    poll := AttemptedWithin(rows, env, i, 0);
  }

  // ---------- Exactly when an event waits for ever ----------

  /** Row `i` is in the batch of none of the polls `p`, `p + 1`, ... */
  ghost predicate NeverTaken(rows: seq<Row>, env: Env, p: nat, i: nat)
    requires i < |rows|
  {
    forall n: nat :: !Chosen(After(rows, env, p, n), i)
  }

  /** From poll `p + q` on, every poll is a full batch of older events that all lose their
      retry increment. */
  ghost predicate AllLostFrom(rows: seq<Row>, env: Env, p: nat, i: nat, q: nat)
    requires i < |rows|
  {
    forall n: nat :: n >= q ==> LostAt(rows, env, p, i, n) == 50
  }

  /** Increments that rows older than row `i` lose at poll `p + n`. */
  function LostAt(rows: seq<Row>, env: Env, p: nat, i: nat, n: nat): nat
    requires i < |rows|
  {
    Lost(After(rows, env, p, n), env, p + n, i)
  }

  lemma {:induction false} LostIsAttempted(rows: seq<Row>, env: Env, p: nat, i: nat)
    requires i <= |rows|
    ensures Lost(rows, env, p, i) <= Min(BATCH, OlderEligible(rows, i))
  {
    if i > 0 { LostIsAttempted(rows, env, p, i - 1); }
  }

  lemma {:induction false} AfterOneMore(rows: seq<Row>, env: Env, p: nat, n: nat)
    ensures After(rows, env, p, n + 1) == PollThenArrive(After(rows, env, p, n), env, p + n)
    decreases n
  {
    if n > 0 { AfterOneMore(PollThenArrive(rows, env, p), env, p + 1, n - 1); }
  }

  /** A row that is not taken does not change. */
  lemma {:induction false} WaitingStays(rows: seq<Row>, env: Env, p: nat, i: nat, n: nat)
    requires i < |rows| && NeverTaken(rows, env, p, i)
    ensures After(rows, env, p, n)[i] == rows[i]
  {
    if n > 0 {
      WaitingStays(rows, env, p, i, n - 1);
      AfterOneMore(rows, env, p, n - 1);
      assert !Chosen(After(rows, env, p, n - 1), i);
      UnchosenStays(After(rows, env, p, n - 1), env, p + n - 1, i);
    }
  }

  /** While a row waits, a poll that does not lose its whole batch uses up older attempts. */
  lemma {:induction false} WaitingSpends(rows: seq<Row>, env: Env, p: nat, i: nat, n: nat)
    requires i < |rows| && Eligible(rows[i]) && NeverTaken(rows, env, p, i)
    ensures Potential(After(rows, env, p, n + 1), i) + BATCH
         <= Potential(After(rows, env, p, n), i) + LostAt(rows, env, p, i, n)
    ensures LostAt(rows, env, p, i, n) <= BATCH
  {
    hide Potential, Lost, OlderEligible, After;
    var now := After(rows, env, p, n);
    WaitingStays(rows, env, p, i, n);
    assert !Chosen(now, i);
    AfterOneMore(rows, env, p, n);
    PollSpends(now, env, p + n, i);
    LostIsAttempted(now, env, p + n, i);
  }

  lemma {:induction false} PotentialFalls(rows: seq<Row>, env: Env, p: nat, i: nat, n: nat)
    requires i < |rows| && Eligible(rows[i]) && NeverTaken(rows, env, p, i)
    ensures Potential(After(rows, env, p, n), i) <= Potential(rows, i)
  {
    if n > 0 {
      PotentialFalls(rows, env, p, i, n - 1);
      WaitingSpends(rows, env, p, i, n - 1);
    }
  }

  lemma {:induction false} NeverTakenLater(rows: seq<Row>, env: Env, p: nat, i: nat, k: nat)
    requires i < |rows| && NeverTaken(rows, env, p, i)
    ensures NeverTaken(After(rows, env, p, k), env, p + k, i)
  {
    var later, from := After(rows, env, p, k), p + k;
    forall n: nat ensures !Chosen(After(later, env, from, n), i) {
      AfterAfter(rows, env, p, k, n);
    }
  }

  /** A row that waits for ever comes to wait behind polls that lose everything. */
  lemma {:induction false} WaitingSettles(rows: seq<Row>, env: Env, p: nat, i: nat) returns (q: nat)
    requires i < |rows| && Eligible(rows[i]) && NeverTaken(rows, env, p, i)
    ensures AllLostFrom(rows, env, p, i, q)
    decreases Potential(rows, i)
  {
    hide Potential, After, NeverTaken, Lost;
    if exists n: nat :: LostAt(rows, env, p, i, n) != BATCH {
      var k: nat :| LostAt(rows, env, p, i, k) != BATCH;
      PotentialFalls(rows, env, p, i, k);
      WaitingSpends(rows, env, p, i, k);
      WaitingStays(rows, env, p, i, k + 1);
      NeverTakenLater(rows, env, p, i, k + 1);
      var rest := WaitingSettles(After(rows, env, p, k + 1), env, p + (k + 1), i);
      q := k + 1 + rest;
      forall n: nat | n >= q ensures LostAt(rows, env, p, i, n) == BATCH {
        AfterAfter(rows, env, p, k + 1, n - (k + 1));
        assert LostAt(After(rows, env, p, k + 1), env, p + (k + 1), i, n - (k + 1)) == BATCH;
      }
    } else {
      q := 0;
    }
  }

  /** The first `q` polls do not take row `i`, and all later ones are full of lost increments. */
  ghost predicate StuckFrom(rows: seq<Row>, env: Env, i: nat, q: nat)
    requires i < |rows|
  {
    AllLostFrom(rows, env, 0, i, q) && forall m | 0 <= m < q :: !Chosen(After(rows, env, 0, m), i)
  }

  lemma {:induction false} StuckIsNeverTaken(rows: seq<Row>, env: Env, i: nat, q: nat)
    requires i < |rows| && StuckFrom(rows, env, i, q)
    ensures NeverTaken(rows, env, 0, i)
  {
    forall n: nat ensures !Chosen(After(rows, env, 0, n), i) {
      if n >= q {
        assert LostAt(rows, env, 0, i, n) == BATCH;
        LostIsAttempted(After(rows, env, 0, n), env, n, i);
      }
    }
  }

  /** An eligible event waits for ever exactly if, after some polls that do not take it, every
      poll is a full batch of older events that all lose their retry increment. */
  lemma {:induction false} WaitsForEverIff(rows: seq<Row>, env: Env, i: nat)
    requires i < |rows| && Eligible(rows[i])
    ensures NeverTaken(rows, env, 0, i) <==> exists q: nat :: StuckFrom(rows, env, i, q)
  {
    if NeverTaken(rows, env, 0, i) {
      var q := WaitingSettles(rows, env, 0, i);
      assert StuckFrom(rows, env, i, q);
    }
    if exists q: nat :: StuckFrom(rows, env, i, q) {
      var q: nat :| StuckFrom(rows, env, i, q);
      StuckIsNeverTaken(rows, env, i, q);
    }
  }

  /** A poll that loses every increment of a full batch changes nothing about who is chosen. */
  lemma {:induction false} LostPoll(rows: seq<Row>, env: Env, p: nat, i: nat)
    requires BATCH <= i < |rows| && forall j | 0 <= j < BATCH :: Eligible(rows[j])
    requires forall j: nat | j < BATCH :: env.outcome(p, j) == Failed(false)
    ensures var next := PollThenArrive(rows, env, p);
            !Chosen(rows, i) && i < |next| && next[i] == rows[i] && forall j | 0 <= j < BATCH :: Eligible(next[j])
  {
    AllEligible(rows, BATCH);
    OlderEligibleGrows(rows, BATCH, i);
    UnchosenStays(rows, env, p, i);
    hide OlderEligible;
    var next := PollThenArrive(rows, env, p);
    forall j | 0 <= j < BATCH ensures Eligible(next[j]) {
      assert env.outcome(p, j) == Failed(false);
    }
  }

  /** An environment in which that happens: a full batch of events whose retry increments are
      lost keeps every younger event waiting for ever. */
  lemma {:induction false} LostIncrementsStarve(rows: seq<Row>, env: Env, p: nat, i: nat, n: nat)
    requires BATCH <= i < |rows| && forall j | 0 <= j < BATCH :: Eligible(rows[j])
    requires forall q: nat, j: nat | j < BATCH :: env.outcome(q, j) == Failed(false)
    ensures i < |After(rows, env, p, n)| && After(rows, env, p, n)[i] == rows[i]
    ensures !Chosen(After(rows, env, p, n), i)
    decreases n
  {
    hide Chosen, Eligible, PollThenArrive;
    LostPoll(rows, env, p, i);
    if n > 0 { LostIncrementsStarve(PollThenArrive(rows, env, p), env, p + 1, i, n - 1); }
  }

  lemma {:induction false} AllEligible(rows: seq<Row>, i: nat)
    requires i <= |rows| && forall j | 0 <= j < i :: Eligible(rows[j])
    ensures OlderEligible(rows, i) == i
  {
    if i > 0 { AllEligible(rows, i - 1); }
  }

  // ---------- Drain ----------

  predicate Drained(rows: seq<Row>) { forall i | 0 <= i < |rows| :: !Eligible(rows[i]) }

  /** Every row was sent once per failure and once more if it is published. */
  predicate SendsAccounted(rows: seq<Row>) {
    forall i | 0 <= i < |rows| ::
      && rows[i].retries <= MAX_RETRY + 1
      && rows[i].sends == rows[i].retries + (if rows[i].published then 1 else 0)
  }

  lemma {:induction false} DrainedStays(rows: seq<Row>, env: Env, p: nat)
    requires Drained(rows) && NoArrivals(env)
    ensures PollThenArrive(rows, env, p) == rows
  {
  }

  lemma {:induction false} DrainedForGood(rows: seq<Row>, env: Env, p: nat, n: nat)
    requires Drained(rows) && NoArrivals(env)
    ensures After(rows, env, p, n) == rows
    decreases n
  {
    if n > 0 {
      DrainedStays(rows, env, p);
      DrainedForGood(rows, env, p + 1, n - 1);
    }
  }

  /** When everything eligible fits one batch, each poll attempts all of it. */
  lemma {:induction false} SmallDrain(rows: seq<Row>, env: Env, p: nat, floor: nat)
    requires Counted(env) && NoArrivals(env) && OlderEligible(rows, |rows|) < BATCH
    requires floor <= 6 && forall i | 0 <= i < |rows| && Eligible(rows[i]) :: rows[i].retries >= floor
    ensures Drained(After(rows, env, p, 6 - floor))
    decreases 6 - floor
  {
    if floor < 6 {
      var next := PollThenArrive(rows, env, p);
      assert |next| == |rows|;
      PollUsesPotential(rows, env, p, |rows|);
      forall i | 0 <= i < |next| && Eligible(next[i]) ensures next[i].retries >= floor + 1 {
        OlderEligibleGrows(rows, i, |rows|);
        assert env.outcome(p, i) != Failed(false);
      }
      SmallDrain(next, env, p + 1, floor + 1);
    }
  }

  lemma {:induction false} AfterAfter(rows: seq<Row>, env: Env, p: nat, m: nat, n: nat)
    ensures After(rows, env, p, m + n) == After(After(rows, env, p, m), env, p + m, n)
    decreases m
  {
    if m > 0 { AfterAfter(PollThenArrive(rows, env, p), env, p + 1, m - 1, n); }
  }

  /** Once everything fits one batch, six polls are enough, and more do no harm. */
  lemma {:induction false} DrainFromSmall(rows: seq<Row>, env: Env, p: nat, extra: nat)
    requires Counted(env) && NoArrivals(env) && OlderEligible(rows, |rows|) < BATCH
    ensures Drained(After(rows, env, p, 6 + extra))
  {
    hide After, OlderEligible;
    SmallDrain(rows, env, p, 0);
    AfterAfter(rows, env, p, 6, extra);
    DrainedForGood(After(rows, env, p, 6), env, p + 6, extra);
  }

  lemma {:induction false} DrainWithin(rows: seq<Row>, env: Env, p: nat, full: nat)
    requires Counted(env) && NoArrivals(env) && Potential(rows, |rows|) < BATCH * (full + 1)
    ensures Drained(After(rows, env, p, full + 6))
    decreases full
  {
    PotentialBounds(rows, |rows|);
    if OlderEligible(rows, |rows|) < BATCH {
      DrainFromSmall(rows, env, p, full);
    } else {
      var next := PollThenArrive(rows, env, p);
      assert |next| == |rows|;
      PollUsesPotential(rows, env, p, |rows|);
      DrainWithin(next, env, p + 1, full - 1);
    }
  }

  lemma {:induction false} SendsStayAccounted(rows: seq<Row>, env: Env, p: nat, n: nat)
    requires Counted(env) && NoArrivals(env) && SendsAccounted(rows)
    ensures SendsAccounted(After(rows, env, p, n)) && |After(rows, env, p, n)| == |rows|
    decreases n
  {
    if n > 0 {
      var next := PollThenArrive(rows, env, p);
      forall i | 0 <= i < |next|
        ensures next[i].retries <= MAX_RETRY + 1
        ensures next[i].sends == next[i].retries + (if next[i].published then 1 else 0)
      {
        assert env.outcome(p, i) != Failed(false);
      }
      SendsStayAccounted(next, env, p + 1, n - 1);
    }
  }

  /** Drain: a set of N fresh events is finished after at most floor(6N / 50) + 6 polls;
      each event is then published, having failed fewer than 6 times before, or has failed
      exactly 6 times, and it was sent once for every attempt. */
  lemma {:induction false} DrainBound(rows: seq<Row>, env: Env)
    requires Counted(env) && NoArrivals(env)
    requires forall i | 0 <= i < |rows| :: rows[i] == Row(false, 0, 0)
    ensures var last := After(rows, env, 0, 6 * |rows| / 50 + 6);
            && |last| == |rows|
            && forall i | 0 <= i < |last| ::
                 || (last[i].published && last[i].retries <= 5 && last[i].sends == last[i].retries + 1)
                 || (!last[i].published && last[i].retries == 6 && last[i].sends == 6)
  {
    var n := 6 * |rows| / 50;
    AllEligible(rows, |rows|);
    PotentialBounds(rows, |rows|);
    DrainWithin(rows, env, 0, n);
    SendsStayAccounted(rows, env, 0, n + 6);
    PublishedInTime(rows, env, 0, n + 6);
    hide After, Potential, OlderEligible;
    var last := After(rows, env, 0, n + 6);
    forall i | 0 <= i < |last|
      ensures (last[i].published && last[i].retries <= 5 && last[i].sends == last[i].retries + 1)
           || (!last[i].published && last[i].retries == 6 && last[i].sends == 6)
    {
      assert !Eligible(last[i]);
    }
  }

  predicate InTime(rows: seq<Row>) {
    forall i | 0 <= i < |rows| :: rows[i].published ==> rows[i].retries <= MAX_RETRY
  }

  /** An event is published within its allowed attempts or not at all. */
  lemma {:induction false} PublishedInTime(rows: seq<Row>, env: Env, p: nat, n: nat)
    requires NoArrivals(env) && InTime(rows)
    ensures InTime(After(rows, env, p, n))
    decreases n
  {
    if n > 0 { PublishedInTime(PollThenArrive(rows, env, p), env, p + 1, n - 1); }
  }

  predicate SentFirst(rows: seq<Row>) {
    forall i | 0 <= i < |rows| :: rows[i].published ==> rows[i].sends > 0
  }

  /** Nothing is ever marked published before it was sent, with arrivals and lost
      increments too. */
  lemma {:induction false} SentBeforePublished(rows: seq<Row>, env: Env, p: nat, n: nat)
    requires SentFirst(rows) && forall q: nat :: SentFirst(env.arrivals(q))
    ensures SentFirst(After(rows, env, p, n))
    decreases n
  {
    if n > 0 {
      assert SentFirst(env.arrivals(p));
      SentBeforePublished(PollThenArrive(rows, env, p), env, p + 1, n - 1);
    }
  }
}
