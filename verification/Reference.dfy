/** One request carried out by itself, from its first check to its answer: what the engine run
    alone and the service are proved to do. */
module Reference {
  import opened Common
  import opened Ledger
  import opened Engine

  /** The first account that does not exist or is not active, as an error. */
  function Unavailable(accounts: map<AccountId, bool>, names: seq<AccountId>): (error: Option<Error>)
    ensures error.None? <==> forall a <- names :: a in accounts && accounts[a]
  {
    if names == [] then None
    else if names[0] !in accounts then Some(AccountNotFound)
    else if !accounts[names[0]] then Some(AccountNotActive)
    else Unavailable(accounts, names[1..])
  }

  /** Account `i` is the first that is not available, and `e` says why it is not. */
  predicate FirstBad(accounts: map<AccountId, bool>, names: seq<AccountId>, i: nat, e: Error) {
    && i < |names|
    && (forall j | 0 <= j < i :: names[j] in accounts && accounts[names[j]])
    && (if names[i] !in accounts then e == AccountNotFound else !accounts[names[i]] && e == AccountNotActive)
  }

  lemma {:induction false} UnavailableIff(accounts: map<AccountId, bool>, names: seq<AccountId>, e: Error)
    ensures Unavailable(accounts, names) == Some(e) <==> exists i: nat :: FirstBad(accounts, names, i, e)
  {
    if names == [] {
    } else if names[0] in accounts && accounts[names[0]] {
      var rest := names[1..];
      UnavailableIff(accounts, rest, e);
      if i: nat :| FirstBad(accounts, rest, i, e) {
        forall j | 0 <= j < i + 1 ensures names[j] in accounts && accounts[names[j]] {
          if j > 0 { assert names[j] == rest[j - 1]; }
        }
        assert FirstBad(accounts, names, i + 1, e);
      }
      if i: nat :| FirstBad(accounts, names, i, e) {
        assert forall j | 0 <= j < i - 1 :: rest[j] == names[j + 1];
        assert FirstBad(accounts, rest, i - 1, e);
      }
    } else if Unavailable(accounts, names) == Some(e) {
      assert FirstBad(accounts, names, 0, e);
    }
  }

  datatype Result = Result(tables: Tables, outcome: Outcome)

  /** The transaction of an acceptable request: all of its rows or none, and the answer. */
  function Carried(db: Tables, id: Id, req: Request): Result
    requires req.amount.Amount?
  {
    match Apply(db, Serve(id, req, 0, 0))
    case Some(after) => Result(after, Responded(Response(Header(id, req, Settled), LegsOf(after.entries, id))))
    case None =>
      Result(db, Failed(if Covered(req, Balance(db.entries, req.Debited())) then DatabaseError else InsufficientFunds))
  }

  /** What is answered for a transaction on record. */
  function Known(db: Tables, id: Id): Outcome {
    match FindId(db.txns, id)
    case Some(t) => Responded(Response(t, LegsOf(db.entries, t.id)))
    case None => Failed(DatabaseError)
  }

  /** The tables and the answer when a request is carried out by itself and no call fails. */
  function ByItself(db: Tables, accounts: map<AccountId, bool>, id: Id, req: Request): Result {
    var known := FindKey(db.txns, req.key);
    if Validate(req).Some? then Result(db, Failed(Validate(req).value))
    else if known.Some? then Result(db, Known(db, known.value.id))
    else if Unavailable(accounts, req.Accounts()).Some? then
      Result(db, Failed(Unavailable(accounts, req.Accounts()).value))
    else Carried(db, id, req)
  }

  /** A new transaction is found by its id. */
  lemma {:induction false} FindIdLast(ts: seq<Txn>, t: Txn)
    requires forall x <- ts :: x.id != t.id
    ensures FindId(ts + [t], t.id) == Some(t)
  {
    if ts != [] {
      assert (ts + [t])[1..] == ts[1..] + [t];
      FindIdLast(ts[1..], t);
    }
  }
}
