/** What every step of every client keeps. */
module EngineInvariants {
  import opened Common
  import opened Ledger
  import opened Engine
  import LexOrder

  /** Only interest has been credited to `a` since the first `from` rows. */
  predicate OnlyInterestSince(es: seq<Entry>, from: nat, a: AccountId) {
    forall i | from <= i < |es| ::
      es[i].account == a ==> es[i].kind == Interest && es[i].side == Credit && es[i].amount > 0
  }

  /** `read` is the balance of `a` at some earlier length of the ledger, and only interest
      was credited to `a` since then. */
  predicate ReadOk(es: seq<Entry>, a: AccountId, read: Read) {
    && read.rows <= |es|
    && read.balance == Balance(es[..read.rows], a)
    && OnlyInterestSince(es, read.rows, a)
  }

  /** The rows a client has written but not committed are decided by its position. */
  predicate WritesOk(c: Id, cl: Client)
    requires Sane(cl)
  {
    var phase := Phase(cl.pc);
    if !InTx(cl) then cl.header == None && cl.legs == [] && cl.events == []
    else
      var debit := DebitLeg(c, cl.req, SeenBalance(cl, cl.req.Debited()));
      var credit := CreditLeg(c, cl.req, SeenBalance(cl, cl.req.Credited()));
      && cl.header == (if phase < 6 then None
                       else Some(Header(c, cl.req, if phase < 9 then Pending else Settled)))
      && cl.legs == (if phase < 7 then [] else if phase < 8 then [debit] else [debit, credit])
      && (phase >= 7 ==> Storable(debit))
      && (phase >= 8 ==> Storable(credit))
      && cl.events == (if phase < 10 then [] else [SettledEvent(c, cl.req)])
  }

  predicate Owns<K>(held: map<K, Id>, k: K, c: Id) { k in held && held[k] == c }

  /** What anybody but `c` holds is unchanged. */
  predicate SameForOthers<K>(before: map<K, Id>, after: map<K, Id>, c: Id) {
    && (forall k | k in before :: before[k] != c ==> k in after && after[k] == before[k])
    && (forall k | k in after :: after[k] != c ==> k in before && before[k] == after[k])
  }

  /** What the client's own fields say. */
  predicate ShapeOk(c: Id, cl: Client)
    ensures ShapeOk(c, cl) ==> Sane(cl)
  {
    && Sane(cl)
    && (InTx(cl) ==> Acceptable(cl.req))
    && (cl.pc.CheckingStatus? ==> forall j | 0 <= j < cl.pc.i :: !IsInternal(cl.req.Accounts()[j]))
    && (5 <= Phase(cl.pc) <= 10 ==> Covered(cl.req, SeenBalance(cl, cl.req.Debited())))
    && WritesOk(c, cl)
  }

  /** The client holds exactly the locks and the key its position says. */
  ghost predicate HoldsOk(locks: map<AccountId, Id>, keys: map<Key, Id>, c: Id, cl: Client)
    requires Sane(cl)
  {
    && (forall a :: Owns(locks, a, c) <==> a in Held(cl))
    && (forall k :: Owns(keys, k, c) <==> HoldsKey(cl) && k == cl.req.key)
  }

  /** The client has read every account it holds, and nothing else. */
  ghost predicate ReadsOk(es: seq<Entry>, cl: Client)
    requires Sane(cl)
  {
    && (forall a :: a in cl.seen <==> a in Held(cl))
    && (forall a | a in cl.seen :: ReadOk(es, a, cl.seen[a]))
  }

  /** Nothing of the client's is committed before its commit. */
  predicate RowsOk(db: Tables, c: Id, cl: Client) {
    && (Phase(cl.pc) <= 10 ==> !IdUsed(db, c))
    && (HoldsKey(cl) ==> !KeyUsed(db, cl.req.key))
    && (cl.pc.FetchingHeader? ==> IdUsed(db, cl.pc.id))
    && (cl.pc.FetchingLegs? ==> cl.pc.header in db.txns)
  }

  ghost predicate ClientOk(s: State, c: Id, cl: Client)
    ensures ClientOk(s, c, cl) ==> Sane(cl)
  {
    && ShapeOk(c, cl)
    && HoldsOk(s.locks, s.keys, c, cl)
    && ReadsOk(s.db.entries, cl)
    && RowsOk(s.db, c, cl)
  }

  ghost predicate Inv(s: State) {
    && (forall a | a in s.accounts :: !IsInternal(a))
    && (forall a | a in s.locks :: s.locks[a] in s.clients)
    && (forall k | k in s.keys :: s.keys[k] in s.clients)
    && (forall c | c in s.clients :: ClientOk(s, c, s.clients[c]))
  }

  // ---------- Frames ----------

  lemma {:induction false} IdUsedAppend(db: Tables, more: Tables, id: Id)
    ensures IdUsed(Append(db, more), id) <==> IdUsed(db, id) || IdUsed(more, id)
  {
    if IdUsed(Append(db, more), id) && !IdUsed(db, id) {
      var t :| t in Append(db, more).txns && t.id == id;
      assert t in more.txns;
    }
    if IdUsed(db, id) {
      var t :| t in db.txns && t.id == id;
      assert t in Append(db, more).txns;
    }
    if IdUsed(more, id) {
      var t :| t in more.txns && t.id == id;
      assert t in Append(db, more).txns;
    }
  }

  lemma {:induction false} KeyUsedAppend(db: Tables, more: Tables, key: Key)
    ensures KeyUsed(Append(db, more), key) <==> KeyUsed(db, key) || KeyUsed(more, key)
  {
    if KeyUsed(Append(db, more), key) && !KeyUsed(db, key) {
      var t :| t in Append(db, more).txns && t.key == key;
      assert t in more.txns;
    }
    if KeyUsed(db, key) {
      var t :| t in db.txns && t.key == key;
      assert t in Append(db, more).txns;
    }
    if KeyUsed(more, key) {
      var t :| t in more.txns && t.key == key;
      assert t in Append(db, more).txns;
    }
  }

  lemma {:induction false} ReadOkAppend(es: seq<Entry>, more: seq<Entry>, a: AccountId, read: Read)
    requires ReadOk(es, a, read) && OnlyInterestSince(more, 0, a)
    ensures ReadOk(es + more, a, read)
  {
    assert (es + more)[..read.rows] == es[..read.rows];
    forall i | read.rows <= i < |es + more| && (es + more)[i].account == a
      ensures (es + more)[i].kind == Interest && (es + more)[i].side == Credit && (es + more)[i].amount > 0
    {
      if i >= |es| { assert (es + more)[i] == more[i - |es|]; }
    }
  }

  /** Rows that can be appended without disturbing a waiting client. */
  ghost predicate Harmless(more: Tables, c: Id, cl: Client)
    requires Sane(cl)
  {
    && (Phase(cl.pc) <= 10 ==> !IdUsed(more, c))
    && (HoldsKey(cl) ==> !KeyUsed(more, cl.req.key))
    && (forall a | a in Held(cl) :: OnlyInterestSince(more.entries, 0, a))
  }

  /** A client that does not move keeps its invariant when others append harmless rows
      and touch only their own locks and keys. */
  lemma {:induction false} OtherClientOk(s: State, t: State, more: Tables, c: Id, cl: Client)
    requires ClientOk(s, c, cl)
    requires t.db == Append(s.db, more) && Harmless(more, c, cl)
    requires forall a :: Owns(t.locks, a, c) <==> Owns(s.locks, a, c)
    requires forall k :: Owns(t.keys, k, c) <==> Owns(s.keys, k, c)
    ensures ClientOk(t, c, cl)
  {
    hide ShapeOk;
    IdUsedAppend(s.db, more, c);
    KeyUsedAppend(s.db, more, cl.req.key);
    if cl.pc.FetchingHeader? { IdUsedAppend(s.db, more, cl.pc.id); }
    forall a | a in cl.seen ensures ReadOk(t.db.entries, a, cl.seen[a]) {
      ReadOkAppend(s.db.entries, more.entries, a, cl.seen[a]);
    }
  }

  lemma {:induction false} NothingIsHarmless(c: Id, cl: Client)
    requires Sane(cl)
    ensures Harmless(EMPTY, c, cl)
  {
  }

  lemma {:induction false} AppendEmpty(db: Tables)
    ensures Append(db, EMPTY) == db
  {
  }

  /** Everyone but the moving client `c` keeps its invariant. */
  lemma {:induction false} OthersOk(s: State, t: State, more: Tables, c: Id)
    requires Inv(s)
    requires OthersStay(s, t, c)
    requires t.db == Append(s.db, more)
    requires forall d | d in s.clients && d != c :: Harmless(more, d, s.clients[d])
    requires SameForOthers(s.locks, t.locks, c) && SameForOthers(s.keys, t.keys, c)
    ensures forall d | d in t.clients && d != c :: ClientOk(t, d, t.clients[d])
    ensures forall a | a in t.locks :: t.locks[a] in t.clients
    ensures forall k | k in t.keys :: t.keys[k] in t.clients
  {
    hide ClientOk, Harmless;
    forall d | d in t.clients && d != c ensures ClientOk(t, d, t.clients[d]) {
      OtherClientOk(s, t, more, d, s.clients[d]);
    }
  }

  /** If the moving client ends up right and disturbs nobody, so does the whole state. */
  lemma {:induction false} MoveKeeps(s: State, t: State, more: Tables, c: Id)
    requires Inv(s)
    requires t.accounts == s.accounts
    requires OthersStay(s, t, c)
    requires t.db == Append(s.db, more)
    requires forall d | d in s.clients && d != c :: Harmless(more, d, s.clients[d])
    requires SameForOthers(s.locks, t.locks, c) && SameForOthers(s.keys, t.keys, c)
    requires ClientOk(t, c, t.clients[c])
    ensures Inv(t)
  {
    hide ClientOk, Harmless;
    OthersOk(s, t, more, c);
  }

  /** The same for a client that commits nothing. */
  lemma {:induction false} LocalMoveKeeps(s: State, t: State, c: Id)
    requires Inv(s)
    requires t.accounts == s.accounts && t.db == s.db
    requires OthersStay(s, t, c)
    requires SameForOthers(s.locks, t.locks, c) && SameForOthers(s.keys, t.keys, c)
    requires ClientOk(t, c, t.clients[c])
    ensures Inv(t)
  {
    AppendEmpty(s.db);
    forall d | d in s.clients && d != c ensures Harmless(EMPTY, d, s.clients[d]) {
      NothingIsHarmless(d, s.clients[d]);
    }
    hide ClientOk, Harmless;
    MoveKeeps(s, t, EMPTY, c);
  }

  // ---------- The moving client ----------

  /** `t` is `s` after client `c` moved, and `c` is as it should be. */
  ghost predicate Moved(s: State, t: State, c: Id) {
    c in t.clients && ClientOk(t, c, t.clients[c])
  }

  lemma {:induction false} RollbackOk(s: State, c: Id, cl: Client, error: Error)
    requires ClientOk(s, c, cl)
    ensures Moved(s, Rollback(s, c, cl, error), c)
  {
    hide Validate, Acceptable, ReadOk, IdUsed, KeyUsed;
  }

  lemma {:induction false} CheckRequestOk(s: State, c: Id, cl: Client)
    requires ClientOk(s, c, cl) && cl.pc.Validating?
    ensures Moved(s, CheckRequest(s, c, cl), c)
  {
    var error := Validate(cl.req);
    if error.Some? { RollbackOk(s, c, cl, error.value); }
    hide Validate, ReadOk, IdUsed, KeyUsed;
  }

  lemma {:induction false} CheckKeyOk(s: State, c: Id, cl: Client)
    requires ClientOk(s, c, cl) && cl.pc.CheckingKey?
    ensures Moved(s, CheckKey(s, c, cl), c)
  {
    hide Validate, ReadOk, KeyUsed, FindKey;
  }

  lemma {:induction false} CheckStatusOk(s: State, c: Id, cl: Client)
    requires ClientOk(s, c, cl) && cl.pc.CheckingStatus? && forall a | a in s.accounts :: !IsInternal(a)
    ensures Moved(s, CheckStatus(s, c, cl), c)
  {
    var a := cl.req.Accounts()[cl.pc.i];
    if a !in s.accounts { RollbackOk(s, c, cl, AccountNotFound); }
    else if !s.accounts[a] { RollbackOk(s, c, cl, AccountNotActive); }
    hide Validate, ReadOk, KeyUsed, IdUsed, IsInternal, LexOrder.Less, Rollback;
  }

  lemma {:induction false} OwnsAdded(held: map<AccountId, Id>, k: AccountId, c: Id, x: AccountId)
    ensures Owns(held[k := c], x, c) <==> Owns(held, x, c) || x == k
  {
  }

  lemma {:induction false} HeldGrows(s: State, c: Id, cl: Client)
    requires Sane(cl) && cl.pc.Locking?
    ensures var t := GrantLock(s, c, cl);
            c in t.clients && Sane(t.clients[c]) &&
            forall a :: a in Held(t.clients[c]) <==> a in Held(cl) || a == cl.req.LockOrder()[cl.pc.i]
  {
    hide Validate, LexOrder.Less;
    var order, i, t := cl.req.LockOrder(), cl.pc.i, GrantLock(s, c, cl);
    assert Held(t.clients[c]) == order[..i + 1] == order[..i] + [order[i]];
  }

  lemma {:induction false} GrantLockReads(s: State, c: Id, cl: Client)
    requires Sane(cl) && cl.pc.Locking? && ReadsOk(s.db.entries, cl)
    ensures var t := GrantLock(s, c, cl); c in t.clients && Sane(t.clients[c]) && ReadsOk(s.db.entries, t.clients[c])
  {
    HeldGrows(s, c, cl);
    CurrentReadOk(s.db.entries, cl.req.LockOrder()[cl.pc.i]);
    hide Held, Validate, LexOrder.Less, ReadOk, Balance;
  }

  /** A balance read from all the rows there are. */
  lemma {:induction false} CurrentReadOk(es: seq<Entry>, a: AccountId)
    ensures ReadOk(es, a, Read(Balance(es, a), |es|))
  {
    assert es[..|es|] == es;
  }

  lemma {:induction false} GrantLockHolds(s: State, c: Id, cl: Client)
    requires Sane(cl) && cl.pc.Locking? && HoldsOk(s.locks, s.keys, c, cl)
    ensures var t := GrantLock(s, c, cl);
            c in t.clients && Sane(t.clients[c]) && HoldsOk(t.locks, t.keys, c, t.clients[c])
  {
    hide Held, Validate, LexOrder.Less, Owns, Balance;
    HeldGrows(s, c, cl);
    var x, t := cl.req.LockOrder()[cl.pc.i], GrantLock(s, c, cl);
    assert t.locks == s.locks[x := c] && t.keys == s.keys;
    forall a ensures Owns(t.locks, a, c) <==> a in Held(t.clients[c]) { OwnsAdded(s.locks, x, c, a); }
  }

  lemma {:induction false} GrantLockOk(s: State, c: Id, cl: Client)
    requires ClientOk(s, c, cl) && cl.pc.Locking? && cl.req.LockOrder()[cl.pc.i] !in s.locks
    ensures Moved(s, GrantLock(s, c, cl), c)
  {
    GrantLockReads(s, c, cl);
    GrantLockHolds(s, c, cl);
    hide Validate, Acceptable, IdUsed, KeyUsed, LexOrder.Less, ReadsOk, HoldsOk, DebitLeg, CreditLeg;
  }

  lemma {:induction false} CheckFundsOk(s: State, c: Id, cl: Client)
    requires ClientOk(s, c, cl) && cl.pc.CheckingFunds?
    ensures Moved(s, CheckFunds(s, c, cl), c)
  {
    if !Covered(cl.req, SeenBalance(cl, cl.req.Debited())) { RollbackOk(s, c, cl, InsufficientFunds); }
    hide Validate, Acceptable, ReadOk, IdUsed, KeyUsed, DebitLeg, CreditLeg, Storable, LexOrder.Less, Rollback;
  }

  lemma {:induction false} InsertHeaderOk(s: State, c: Id, cl: Client)
    requires ClientOk(s, c, cl) && cl.pc.InsertingHeader? && cl.req.key !in s.keys
    ensures Moved(s, InsertHeader(s, c, cl), c)
  {
    if KeyUsed(s.db, cl.req.key) {
      RollbackOk(s, c, cl, DatabaseError);
    } else {
      hide Validate, Acceptable, ReadOk, IdUsed, KeyUsed, DebitLeg, CreditLeg, Storable, LexOrder.Less;
      var t := InsertHeader(s, c, cl);
      forall k ensures Owns(t.keys, k, c) <==> k == cl.req.key {
        assert !Owns(s.keys, k, c);
      }
    }
  }

  lemma {:induction false} InsertDebitOk(s: State, c: Id, cl: Client)
    requires ClientOk(s, c, cl) && cl.pc.InsertingDebit?
    ensures Moved(s, InsertLeg(s, c, cl, DebitLeg(c, cl.req, SeenBalance(cl, cl.req.Debited())), InsertingCredit), c)
  {
    var leg := DebitLeg(c, cl.req, SeenBalance(cl, cl.req.Debited()));
    if !Storable(leg) { RollbackOk(s, c, cl, DatabaseError); }
    hide Validate, Acceptable, ReadOk, IdUsed, KeyUsed, DebitLeg, CreditLeg, Storable, LexOrder.Less, Rollback;
  }

  lemma {:induction false} InsertCreditOk(s: State, c: Id, cl: Client)
    requires ClientOk(s, c, cl) && cl.pc.InsertingCredit?
    ensures Moved(s, InsertLeg(s, c, cl, CreditLeg(c, cl.req, SeenBalance(cl, cl.req.Credited())), Settling), c)
  {
    var leg := CreditLeg(c, cl.req, SeenBalance(cl, cl.req.Credited()));
    if !Storable(leg) { RollbackOk(s, c, cl, DatabaseError); }
    hide Validate, Acceptable, ReadOk, IdUsed, KeyUsed, DebitLeg, CreditLeg, Storable, LexOrder.Less, Rollback;
  }

  lemma {:induction false} SettleOk(s: State, c: Id, cl: Client)
    requires ClientOk(s, c, cl) && cl.pc.Settling?
    ensures Moved(s, Settle(s, c, cl), c)
  {
    hide Validate, Acceptable, ReadOk, IdUsed, KeyUsed, DebitLeg, CreditLeg, Storable, LexOrder.Less;
  }

  lemma {:induction false} InsertEventOk(s: State, c: Id, cl: Client)
    requires ClientOk(s, c, cl) && cl.pc.InsertingEvent?
    ensures Moved(s, InsertEvent(s, c, cl), c)
  {
    hide Validate, Acceptable, ReadOk, IdUsed, KeyUsed, DebitLeg, CreditLeg, Storable, LexOrder.Less;
  }

  lemma {:induction false} CommitOk(s: State, c: Id, cl: Client)
    requires ClientOk(s, c, cl) && cl.pc.Committing?
    ensures Moved(s, Commit(s, c, cl), c)
  {
    hide Validate, Acceptable, ReadOk, KeyUsed, DebitLeg, CreditLeg, Storable, LexOrder.Less;
    var rows := CommitRows(cl);
    assert rows.txns[0].id == c;
    IdUsedAppend(s.db, rows, c);
  }

  lemma {:induction false} FetchHeaderOk(s: State, c: Id, cl: Client)
    requires ClientOk(s, c, cl) && cl.pc.FetchingHeader?
    ensures Moved(s, FetchHeader(s, c, cl, cl.pc.id), c)
  {
    hide Validate, Acceptable, ReadOk, KeyUsed, FindId;
  }

  lemma {:induction false} FetchLegsOk(s: State, c: Id, cl: Client)
    requires ClientOk(s, c, cl) && cl.pc.FetchingLegs?
    ensures Moved(s, FetchLegs(s, c, cl, cl.pc.header), c)
  {
    hide Validate, Acceptable, ReadOk, KeyUsed, IdUsed, LegsOf;
  }

  // ---------- Commit ----------

  /** The customer legs of a commit are on accounts the client has locked. */
  lemma {:induction false} CommitAccounts(c: Id, cl: Client)
    requires ShapeOk(c, cl) && cl.pc.Committing?
    ensures forall e <- CommitRows(cl).entries :: e.account == GL_CASH || e.account in Held(cl)
    ensures forall t <- CommitRows(cl).txns :: t.id == c && t.key == cl.req.key
  {
    hide Validate, LexOrder.Less, Storable;
  }

  /** Locks are exclusive: no account is held by two clients. */
  lemma {:induction false} HeldDisjoint(s: State, c: Id, cl: Client, d: Id, other: Client)
    requires Sane(cl) && Sane(other) && c != d
    requires HoldsOk(s.locks, s.keys, c, cl) && HoldsOk(s.locks, s.keys, d, other)
    ensures forall a | a in Held(other) :: a !in Held(cl)
    ensures HoldsKey(cl) && HoldsKey(other) ==> cl.req.key != other.req.key
  {
    hide Held, WellFormed;
    forall a | a in Held(other) ensures a !in Held(cl) {
      assert Owns(s.locks, a, d) && !Owns(s.locks, a, c);
    }
    if HoldsKey(cl) && HoldsKey(other) {
      assert Owns(s.keys, cl.req.key, c) && Owns(s.keys, other.req.key, d);
    }
  }

  /** A commit touches only accounts and keys that no other client holds. */
  lemma {:induction false} CommitHarmless(s: State, c: Id, cl: Client, d: Id, other: Client)
    requires ClientOk(s, c, cl) && ClientOk(s, d, other) && c != d && cl.pc.Committing?
    ensures Harmless(CommitRows(cl), d, other)
  {
    CommitAccounts(c, cl);
    HeldAreCustomers(d, other);
    HeldDisjoint(s, c, cl, d, other);
    hide Held, CommitRows, ShapeOk, ReadsOk, RowsOk, HoldsOk, WellFormed;
  }

  lemma {:induction false} HeldAreCustomers(c: Id, cl: Client)
    requires ShapeOk(c, cl)
    ensures forall a | a in Held(cl) :: !IsInternal(a)
  {
    hide WritesOk, LexOrder.Less, Validate;
  }

  // ---------- Interest runs ----------

  lemma {:induction false} PostingTxns(ps: seq<Posting>, side: Side)
    ensures var ts := PostingRows(ps, side).txns;
            |ts| == |ps| && forall i | 0 <= i < |ps| :: ts[i] == Txn(ps[i].id, ps[i].key, Interest, Settled)
    ensures PostingRows(ps, side).outbox == []
  {
    if ps != [] { PostingTxns(ps[..|ps| - 1], side); }
  }

  lemma {:induction false} PostingLegsOnly(ps: seq<Posting>, side: Side)
    ensures forall e <- PostingRows(ps, side).entries :: exists p <- ps :: e in PostingLegs(p, side)
  {
    if ps != [] {
      var last, rest := ps[|ps| - 1], ps[..|ps| - 1];
      PostingLegsOnly(rest, side);
      forall e | e in PostingRows(ps, side).entries ensures exists p <- ps :: e in PostingLegs(p, side) {
        if e in PostingRows(rest, side).entries {
          var p :| p in rest && e in PostingLegs(p, side);
          assert p in ps;
        } else {
          assert last in ps && e in PostingLegs(last, side);
        }
      }
    }
  }

  lemma {:induction false} PostingEntries(ps: seq<Posting>, side: Side, a: AccountId)
    requires !IsInternal(a) && forall p <- ps :: p.amount > 0
    ensures OnlyInterestSince(PostingRows(ps, side).entries, 0, a)
  {
    var es := PostingRows(ps, side).entries;
    PostingLegsOnly(ps, side);
    forall i | 0 <= i < |es| && es[i].account == a
      ensures es[i].kind == Interest && es[i].side == Credit && es[i].amount > 0
    {
      assert es[i] in es;
      var p :| p in ps && es[i] in PostingLegs(p, side);
    }
  }

  /** Fresh postings use nobody's id and nobody's key. */
  lemma {:induction false} PostingIds(s: State, ps: seq<Posting>, side: Side, d: Id, key: Key)
    requires CanPost(s, ps)
    ensures d in s.clients ==> !IdUsed(PostingRows(ps, side), d)
    ensures key in s.keys ==> !KeyUsed(PostingRows(ps, side), key)
  {
    PostingTxns(ps, side);
  }

  lemma {:induction false} PostHarmless(s: State, ps: seq<Posting>, side: Side, d: Id, cl: Client)
    requires ClientOk(s, d, cl) && d in s.clients && CanPost(s, ps)
    ensures Harmless(PostingRows(ps, side), d, cl)
  {
    PostingIds(s, ps, side, d, cl.req.key);
    HeldAreCustomers(d, cl);
    if HoldsKey(cl) { assert Owns(s.keys, cl.req.key, d); }
    hide Held, ShapeOk, ReadsOk, RowsOk, PostingRows;
    forall a | a in Held(cl) ensures OnlyInterestSince(PostingRows(ps, side).entries, 0, a) {
      PostingEntries(ps, side, a);
    }
  }

  // ---------- Every action ----------

  lemma {:induction false} StepOk(s: State, c: Id)
    requires CanStep(s, c) && ClientOk(s, c, s.clients[c]) && forall a | a in s.accounts :: !IsInternal(a)
    ensures Moved(s, DoStep(s, c), c)
  {
    hide ClientOk, Moved;
    hide CheckRequest, CheckKey, CheckStatus, GrantLock, CheckFunds, InsertHeader, InsertLeg, Settle, InsertEvent,
         Commit, FetchHeader, FetchLegs;
    var cl := s.clients[c];
    match cl.pc
    case Validating => CheckRequestOk(s, c, cl);
    case CheckingKey => CheckKeyOk(s, c, cl);
    case CheckingStatus(_) => CheckStatusOk(s, c, cl);
    case Locking(_) => GrantLockOk(s, c, cl);
    case CheckingFunds => CheckFundsOk(s, c, cl);
    case InsertingHeader => InsertHeaderOk(s, c, cl);
    case InsertingDebit => InsertDebitOk(s, c, cl);
    case InsertingCredit => InsertCreditOk(s, c, cl);
    case Settling => SettleOk(s, c, cl);
    case InsertingEvent => InsertEventOk(s, c, cl);
    case Committing => CommitOk(s, c, cl);
    case FetchingHeader(_) => FetchHeaderOk(s, c, cl);
    case FetchingLegs(_) => FetchLegsOk(s, c, cl);
  }

  lemma {:induction false} SameWithout<K>(held: map<K, Id>, c: Id)
    ensures SameForOthers(held, Without(held, c), c)
  {
  }

  lemma {:induction false} SameAdded<K>(held: map<K, Id>, k: K, c: Id)
    requires k !in held
    ensures SameForOthers(held, held[k := c], c)
  {
  }

  /** What a step leaves alone. */
  lemma {:induction false} StepFrame(s: State, c: Id)
    requires CanStep(s, c)
    ensures var t := DoStep(s, c); t.accounts == s.accounts && t.expenseSide == s.expenseSide
  {
    hide Validate, LexOrder.Less, FindKey, FindId, LegsOf, KeyUsed, DebitLeg, CreditLeg, Storable, Balance, Covered,
         SettledEvent, CommitRows, Append, Goto, Release, OthersStay;
  }

  lemma {:induction false} StepClientsFrame(s: State, c: Id)
    requires CanStep(s, c)
    ensures OthersStay(s, DoStep(s, c), c)
  {
    hide Validate, LexOrder.Less, FindKey, FindId, LegsOf, KeyUsed, DebitLeg, CreditLeg, Storable, Balance, Covered,
         SettledEvent, CommitRows, Append, Goto, Release;
  }

  lemma {:induction false} StepRowsFrame(s: State, c: Id)
    requires CanStep(s, c)
    ensures DoStep(s, c).db == if s.clients[c].pc.Committing? then Append(s.db, CommitRows(s.clients[c])) else s.db
  {
    hide Validate, LexOrder.Less, FindKey, FindId, LegsOf, KeyUsed, DebitLeg, CreditLeg, Storable, Balance, Covered,
         SettledEvent, CommitRows, Append, Goto, Release, OthersStay;
  }

  lemma {:induction false} StepLocksFrame(s: State, c: Id)
    requires CanStep(s, c)
    ensures SameForOthers(s.locks, DoStep(s, c).locks, c)
  {
    var cl := s.clients[c];
    SameWithout(s.locks, c);
    if cl.pc.Locking? { SameAdded(s.locks, cl.req.LockOrder()[cl.pc.i], c); }
    assert SameForOthers(s.locks, s.locks, c);
    hide Validate, LexOrder.Less, FindKey, FindId, LegsOf, KeyUsed, DebitLeg, CreditLeg, Storable, Balance, Covered,
         SettledEvent, Without, CommitRows, Append, SameForOthers;
  }

  lemma {:induction false} StepKeysFrame(s: State, c: Id)
    requires CanStep(s, c)
    ensures SameForOthers(s.keys, DoStep(s, c).keys, c)
  {
    var cl := s.clients[c];
    SameWithout(s.keys, c);
    if cl.pc.InsertingHeader? { SameAdded(s.keys, cl.req.key, c); }
    assert SameForOthers(s.keys, s.keys, c);
    hide Validate, LexOrder.Less, FindKey, FindId, LegsOf, KeyUsed, DebitLeg, CreditLeg, Storable, Balance, Covered,
         SettledEvent, Without, CommitRows, Append, SameForOthers;
  }

  lemma {:induction false} StepKeeps(s: State, c: Id)
    requires Inv(s) && CanStep(s, c)
    ensures Inv(DoStep(s, c))
  {
    hide ClientOk, Harmless, SameForOthers, DoStep, CommitRows;
    StepOk(s, c);
    StepFrame(s, c);
    StepClientsFrame(s, c);
    StepRowsFrame(s, c);
    StepLocksFrame(s, c);
    StepKeysFrame(s, c);
    var cl, t := s.clients[c], DoStep(s, c);
    if cl.pc.Committing? {
      forall d | d in s.clients && d != c ensures Harmless(CommitRows(cl), d, s.clients[d]) {
        CommitHarmless(s, c, cl, d, s.clients[d]);
      }
      MoveKeeps(s, t, CommitRows(cl), c);
    } else {
      LocalMoveKeeps(s, t, c);
    }
  }

  lemma {:induction false} AbortKeeps(s: State, c: Id)
    requires Inv(s) && Enabled(s, Abort(c))
    ensures Inv(Next(s, Abort(c)))
  {
    hide ClientOk;
    RollbackOk(s, c, s.clients[c], DatabaseError);
    LocalMoveKeeps(s, Next(s, Abort(c)), c);
  }

  lemma {:induction false} ArriveClientOk(s: State, c: Id, req: Request)
    requires Enabled(s, Arrive(c, req))
    requires forall a | a in s.locks :: s.locks[a] in s.clients
    requires forall k | k in s.keys :: s.keys[k] in s.clients
    ensures var t := Next(s, Arrive(c, req)); ClientOk(t, c, t.clients[c])
  {
  }

  lemma {:induction false} ArriveKeeps(s: State, c: Id, req: Request)
    requires Inv(s) && Enabled(s, Arrive(c, req))
    ensures Inv(Next(s, Arrive(c, req)))
  {
    hide ClientOk;
    ArriveClientOk(s, c, req);
    LocalMoveKeeps(s, Next(s, Arrive(c, req)), c);
  }

  lemma {:induction false} PostKeeps(s: State, ps: seq<Posting>)
    requires Inv(s) && CanPost(s, ps)
    ensures Inv(Next(s, PostInterest(ps)))
  {
    hide ClientOk, Harmless;
    var rows, t := PostingRows(ps, s.expenseSide), Next(s, PostInterest(ps));
    forall d | d in s.clients ensures ClientOk(t, d, t.clients[d]) {
      PostHarmless(s, ps, s.expenseSide, d, s.clients[d]);
      OtherClientOk(s, t, rows, d, s.clients[d]);
    }
  }

  lemma {:induction false} SetStatusKeeps(s: State, a: AccountId, active: bool)
    requires Inv(s) && !IsInternal(a)
    ensures Inv(Next(s, SetStatus(a, active)))
  {
    hide ClientOk, Harmless;
    var t := Next(s, SetStatus(a, active));
    AppendEmpty(s.db);
    forall d | d in t.clients ensures ClientOk(t, d, t.clients[d]) {
      NothingIsHarmless(d, s.clients[d]);
      OtherClientOk(s, t, EMPTY, d, s.clients[d]);
    }
  }

  /** Every action of the engine keeps the invariant. */
  lemma {:induction false} NextKeeps(s: State, act: Action)
    requires Inv(s) && Enabled(s, act)
    ensures Inv(Next(s, act))
  {
    hide Inv;
    match act
    case Arrive(c, req) => ArriveKeeps(s, c, req);
    case Step(c) => StepKeeps(s, c);
    case Abort(c) => AbortKeeps(s, c);
    case PostInterest(ps) => PostKeeps(s, ps);
    case SetStatus(a, active) => SetStatusKeeps(s, a, active);
  }

  /** Every reachable state satisfies the invariant. */
  lemma {:induction false} RunKeeps(s: State, acts: seq<Action>)
    requires Inv(s) && IsRun(s, acts)
    ensures Inv(Run(s, acts))
    decreases |acts|
  {
    hide Inv;
    if acts != [] {
      NextKeeps(s, acts[0]);
      RunKeeps(Next(s, acts[0]), acts[1..]);
    }
  }

  lemma {:induction false} InitOk(s: State)
    requires Init(s)
    ensures Inv(s)
  {
  }
}
