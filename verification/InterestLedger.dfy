/** Interest over serial runs: what is credited is what was accrued, once per account and
    date, however the posting dates are chosen. */
module InterestLedger {
  import opened Common
  import opened Ledger
  import opened Accruals
  import opened Bank
  import EngineInvariants
  import LexOrder

  // ---------- Conservation ----------

  function AccruedSlots(table: Table, a: AccountId): set<Slot> { set x | x in table && x.account == a }

  function PostedSlots(table: Table, a: AccountId): set<Slot> {
    set x | x in table && x.account == a && table[x].posted
  }

  function UnpostedSlots(table: Table, a: AccountId): set<Slot> {
    set x | x in table && x.account == a && !table[x].posted
  }

  ghost predicate Conserved(s: State) {
    forall a :: !IsInternal(a) ==> InterestCredits(s.tables.entries, a) == Total(s.accruals, PostedSlots(s.accruals, a))
  }

  lemma {:induction false} CreditsAppend(es: seq<Entry>, more: seq<Entry>, a: AccountId)
    ensures InterestCredits(es + more, a) == InterestCredits(es, a) + InterestCredits(more, a)
  {
    if more == [] {
      assert es + more == es;
    } else {
      assert (es + more)[..|es + more| - 1] == es + more[..|more| - 1];
      CreditsAppend(es, more[..|more| - 1], a);
    }
  }

  function SlotsOf(slots: seq<Slot>, a: AccountId): set<Slot> { set x | x in slots && x.account == a }

  lemma {:induction false} OnePostingCredits(p: Posting, side: Side, a: AccountId)
    requires !IsInternal(a)
    ensures InterestCredits(PostingLegs(p, side), a) == if p.account == a then p.amount else 0
  {
    var legs := PostingLegs(p, side);
    assert legs == [legs[0]] + [legs[1]];
    CreditsAppend([legs[0]], [legs[1]], a);
  }

  /** A posting run credits an account with its slots' amounts. */
  lemma {:induction false} PostingCredits(table: Table, slots: seq<Slot>, names: Names, side: Side, a: AccountId)
    requires !IsInternal(a) && forall x <- slots :: x in table
    requires Distinct(slots)
    ensures SlotsOf(slots, a) <= table.Keys
    ensures InterestCredits(PostingRows(Postings(table, slots, names), side).entries, a) == Total(table, SlotsOf(slots, a))
  {
    if slots != [] {
      var rest, x := slots[..|slots| - 1], slots[|slots| - 1];
      PostingCredits(table, rest, names, side, a);
      var ps := Postings(table, slots, names);
      PostingAccounts(table, slots, names);
      assert ps[..|ps| - 1] == Postings(table, rest, names);
      CreditsAppend(PostingRows(ps[..|ps| - 1], side).entries, PostingLegs(ps[|ps| - 1], side), a);
      OnePostingCredits(ps[|ps| - 1], side, a);
      SlotsOfLast(slots, a);
      if x.account == a { TotalAdd(table, SlotsOf(slots, a), x); }
      hide Total, PostingRows, SlotsOf;
    }
  }

  lemma {:induction false} SlotsOfLast(slots: seq<Slot>, a: AccountId)
    requires slots != [] && Distinct(slots)
    ensures var rest, x := slots[..|slots| - 1], slots[|slots| - 1];
            && x !in rest
            && (x.account == a ==> x in SlotsOf(slots, a) && SlotsOf(slots, a) - {x} == SlotsOf(rest, a))
            && (x.account != a ==> SlotsOf(slots, a) == SlotsOf(rest, a))
  {
    var rest, x := slots[..|slots| - 1], slots[|slots| - 1];
    assert forall y :: y in slots <==> y in rest || y == x;
  }

  lemma {:induction false} SelectionFacts(table: Table, through: int)
    ensures forall x <- Selection(table, through) :: x in table && !table[x].posted && x.date <= through
    ensures forall x | x in table && !table[x].posted && x.date <= through :: x in Selection(table, through)
    ensures Distinct(Selection(table, through))
  {
    SortedDistinct(Unposted(table, through));
  }

  lemma {:induction false} PostedKeepsConserved(s: State, through: int, names: Names)
    requires Conserved(s)
    ensures Conserved(Posted(s, through, names))
  {
    var slots, after := Selection(s.accruals, through), Posted(s, through, names);
    var ps := Postings(s.accruals, slots, names);
    if Apply(s.tables, Post(ps, EXPENSE_SIDE)).Some? {
      forall a | !IsInternal(a)
        ensures InterestCredits(after.tables.entries, a) == Total(after.accruals, PostedSlots(after.accruals, a))
      {
        SelectionFacts(s.accruals, through);
        CreditsAppend(s.tables.entries, PostingRows(ps, EXPENSE_SIDE).entries, a);
        PostingCredits(s.accruals, slots, names, EXPENSE_SIDE, a);
        MarkedSlots(s.accruals, slots, a);
        TotalUnion(s.accruals, PostedSlots(s.accruals, a), SlotsOf(slots, a));
        TotalSame(s.accruals, after.accruals, PostedSlots(after.accruals, a));
        hide Total, PostingRows, InterestCredits, SlotsOf, PostedSlots, MarkPosted, Selection, FreshPostings, Postings;
      }
    }
  }

  lemma {:induction false} MarkedSlots(table: Table, slots: seq<Slot>, a: AccountId)
    requires forall x <- slots :: x in table && !table[x].posted
    ensures PostedSlots(MarkPosted(table, slots), a) == PostedSlots(table, a) + SlotsOf(slots, a)
    ensures PostedSlots(table, a) !! SlotsOf(slots, a)
    ensures PostedSlots(table, a) + SlotsOf(slots, a) <= table.Keys == MarkPosted(table, slots).Keys
    ensures forall x | x in table :: MarkPosted(table, slots)[x].amount == table[x].amount
  {
  }

  lemma {:induction false} AccrueKeepsConserved(s: State, op: Bank.Op)
    requires Conserved(s) && op.Accrue? && Enabled(s, op)
    ensures Conserved(Next(s, op))
  {
    if op.rate.Some? {
      var after := Next(s, op);
      AccrueAllKeeps(s.accruals, a => Balance(s.tables.entries, a), op.date, op.rate.value, op.order, op.fault);
      hide AccrueAll;
      forall a | !IsInternal(a)
        ensures InterestCredits(after.tables.entries, a) == Total(after.accruals, PostedSlots(after.accruals, a))
      {
        assert PostedSlots(after.accruals, a) == PostedSlots(s.accruals, a);
        TotalSame(s.accruals, after.accruals, PostedSlots(s.accruals, a));
      }
    }
  }

  lemma {:induction false} ServedKeepsConserved(s: State, id: Id, req: Ledger.Request)
    requires Conserved(s)
    ensures Conserved(Served(s, id, req))
  {
    var after := Served(s, id, req);
    if after != s {
      ServedAccounts(s, id, req);
      var n, es := |s.tables.entries|, after.tables.entries;
      hide Apply;
      assert after.accruals == s.accruals;
      forall a | !IsInternal(a)
        ensures InterestCredits(after.tables.entries, a) == Total(after.accruals, PostedSlots(after.accruals, a))
      {
        assert es == s.tables.entries + [es[n], es[n + 1]];
        CreditsAppend(s.tables.entries, [es[n], es[n + 1]], a);
        assert [es[n], es[n + 1]] == [es[n]] + [es[n + 1]];
        CreditsAppend([es[n]], [es[n + 1]], a);
      }
    }
  }

  lemma {:induction false} NextKeepsConserved(s: State, op: Bank.Op)
    requires Conserved(s) && Enabled(s, op)
    ensures Conserved(Next(s, op))
  {
    match op
    case Create(_, _) =>
    case Freeze(_) =>
    case Close(_) =>
    case Request(id, req) => ServedKeepsConserved(s, id, req);
    case Accrue(_, _, _, _) => AccrueKeepsConserved(s, op);
    case PostThrough(through, names) => PostedKeepsConserved(s, through, names);
  }

  lemma {:induction false} RunKeepsConserved(s: State, ops: seq<Bank.Op>)
    requires Conserved(s) && IsRun(s, ops)
    ensures Conserved(Run(s, ops))
    decreases |ops|
  {
    if ops != [] {
      hide Conserved, Next, Enabled;
      NextKeepsConserved(s, ops[0]);
      RunKeepsConserved(Next(s, ops[0]), ops[1..]);
    }
  }

  lemma {:induction false} AccruedIsPostedPlusUnposted(table: Table, a: AccountId)
    ensures Total(table, AccruedSlots(table, a)) == Total(table, PostedSlots(table, a)) + Total(table, UnpostedSlots(table, a))
  {
    assert AccruedSlots(table, a) == PostedSlots(table, a) + UnpostedSlots(table, a);
    TotalUnion(table, PostedSlots(table, a), UnpostedSlots(table, a));
  }

  /** Conservation: after any serial run, failed and repeated accruals included, an account's
      interest credits are the sum of its posted accruals, and what was accrued is what is
      credited plus what is still unposted. */
  lemma {:induction false} InterestConservation(ops: seq<Bank.Op>, a: AccountId)
    requires IsRun(EMPTY_BANK, ops) && !IsInternal(a)
    ensures var s := Run(EMPTY_BANK, ops);
            && InterestCredits(s.tables.entries, a) == Total(s.accruals, PostedSlots(s.accruals, a))
            && Total(s.accruals, AccruedSlots(s.accruals, a))
            == InterestCredits(s.tables.entries, a) + Total(s.accruals, UnpostedSlots(s.accruals, a))
  {
    assert Conserved(EMPTY_BANK);
    RunKeepsConserved(EMPTY_BANK, ops);
    AccruedIsPostedPlusUnposted(Run(EMPTY_BANK, ops).accruals, a);
  }

  // ---------- Once per account and date ----------

  /** The slots credited by one operation, in order. */
  ghost function PostedBy(s: State, op: Bank.Op): seq<Slot>
    requires Enabled(s, op)
  {
    if op.PostThrough? && Next(s, op) != s then Selection(s.accruals, op.through) else []
  }

  ghost function PostingLog(s: State, ops: seq<Bank.Op>): seq<Slot>
    requires IsRun(s, ops)
    decreases |ops|
  {
    if ops == [] then [] else PostedBy(s, ops[0]) + PostingLog(Next(s, ops[0]), ops[1..])
  }

  predicate IsPosted(s: State, x: Slot) { x in s.accruals && s.accruals[x].posted }

  lemma {:induction false} NextPosts(s: State, op: Bank.Op, x: Slot)
    requires Enabled(s, op)
    ensures IsPosted(Next(s, op), x) <==> IsPosted(s, x) || x in PostedBy(s, op)
    ensures x in PostedBy(s, op) ==> !IsPosted(s, x)
  {
    match op
    case Create(_, _) =>
    case Freeze(_) =>
    case Close(_) =>
    case Request(_, _) => hide Apply;
    case Accrue(date, rate, order, fault) =>
      if rate.Some? { AccrueAllKeeps(s.accruals, a => Balance(s.tables.entries, a), date, rate.value, order, fault); }
      hide AccrueAll;
    case PostThrough(through, _) =>
      SelectionFacts(s.accruals, through);
      hide Selection, Apply, Postings;
  }

  /** One operation posts slots that were not posted, and nothing else. */
  lemma {:induction false} PostedByFacts(s: State, op: Bank.Op)
    requires Enabled(s, op)
    ensures Distinct(PostedBy(s, op))
    ensures forall x <- PostedBy(s, op) :: !IsPosted(s, x)
    ensures forall x :: IsPosted(Next(s, op), x) <==> IsPosted(s, x) || x in PostedBy(s, op)
  {
    hide Next, Enabled, IsPosted, Selection;
    if op.PostThrough? { SelectionFacts(s.accruals, op.through); }
    forall x
      ensures IsPosted(Next(s, op), x) <==> IsPosted(s, x) || x in PostedBy(s, op)
      ensures x in PostedBy(s, op) ==> !IsPosted(s, x)
    {
      NextPosts(s, op, x);
    }
  }

  /** Each account and date is credited at most once in a run, and exactly the posted ones are. */
  lemma {:induction false} CreditedAtMostOnce(s: State, ops: seq<Bank.Op>)
    requires IsRun(s, ops)
    ensures var log := PostingLog(s, ops);
            && Distinct(log)
            && (forall x <- log :: !IsPosted(s, x))
            && (forall x :: IsPosted(Run(s, ops), x) <==> IsPosted(s, x) || x in log)
    decreases |ops|
  {
    hide Next, Enabled, PostedBy, IsPosted, Distinct;
    if ops != [] {
      var t, first := Next(s, ops[0]), PostedBy(s, ops[0]);
      PostedByFacts(s, ops[0]);
      CreditedAtMostOnce(t, ops[1..]);
      DistinctConcat(first, PostingLog(t, ops[1..]));
    } else {
      FewDistinct(Slot(0, ""));
    }
  }

  // ---------- What a posting run does ----------

  predicate InOrder(slots: seq<Slot>) { forall i, j | 0 <= i < j < |slots| :: EarlierOf(slots[i], slots[j]) }

  /** An earlier date, or the same date and an account that sorts first. */
  predicate EarlierOf(x: Slot, y: Slot) {
    x.date < y.date || (x.date == y.date && LexOrder.Less(x.account, y.account))
  }

  lemma {:induction false} SortedInOrder(slots: set<Slot>)
    ensures InOrder(Sorted(slots))
  {
    hide LexOrder.Less, InOrder;
    if slots != {} {
      FirstExists(slots);
      var x :| IsFirst(slots, x);
      hide Sorted;
      SortedFirst(slots, x);
      SortedInOrder(slots - {x});
      FirstThenRest(x, Sorted(slots - {x}));
    } else {
      NothingInOrder();
    }
  }

  lemma {:induction false} NothingInOrder()
    ensures InOrder([])
  {
  }

  lemma {:induction false} FirstThenRest(x: Slot, rest: seq<Slot>)
    requires InOrder(rest) && forall y | y in rest :: EarlierOf(x, y)
    ensures InOrder([x] + rest)
  {
    hide EarlierOf;
    var all := [x] + rest;
    forall i, j | 0 <= i < j < |all| ensures EarlierOf(all[i], all[j]) {
      assert all[j] == rest[j - 1] && rest[j - 1] in rest;
      if i > 0 { assert all[i] == rest[i - 1]; }
    }
  }

  /** A posting run takes every accrual through its date that is not posted yet, by date and
      then by account. */
  lemma {:induction false} SelectionIff(table: Table, through: int, x: Slot)
    ensures x in Selection(table, through) <==> x in table && !table[x].posted && x.date <= through
    ensures InOrder(Selection(table, through))
  {
    SortedInOrder(Unposted(table, through));
    hide Sorted;
  }

  /** A posting run either changes nothing, or leaves posted exactly what was posted and every
      accrual through its date, and changes no accrual otherwise. */
  lemma {:induction false} PostingMarks(s: State, through: int, names: Names)
    ensures var t := Next(s, PostThrough(through, names));
            t != s ==>
              && t.accounts == s.accounts && t.accruals.Keys == s.accruals.Keys
              && forall x <- s.accruals ::
                   t.accruals[x] == s.accruals[x].(posted := s.accruals[x].posted || x.date <= through)
  {
    hide Apply, Postings, Sorted;
  }

  // ---------- What is paid, in order ----------

  datatype Payment = Payment(account: AccountId, amount: int)

  /** The customer legs of interest transactions, in the order they were written. */
  function Payments(es: seq<Entry>): seq<Payment> {
    if es == [] then []
    else
      var e := es[|es| - 1];
      Payments(es[..|es| - 1])
      + (if e.kind == Interest && e.account != GL_INTEREST_EXPENSE then [Payment(e.account, e.amount)] else [])
  }

  /** What the slots are worth, in their order. */
  function Worth(table: Table, slots: seq<Slot>): seq<Payment>
    requires forall x <- slots :: x in table
  {
    if slots == [] then []
    else
      var x := slots[|slots| - 1];
      Worth(table, slots[..|slots| - 1]) + [Payment(x.account, table[x].amount)]
  }

  lemma {:induction false} PaymentsAppend(es: seq<Entry>, more: seq<Entry>)
    ensures Payments(es + more) == Payments(es) + Payments(more)
  {
    if more == [] {
      assert es + more == es;
    } else {
      assert (es + more)[..|es + more| - 1] == es + more[..|more| - 1];
      PaymentsAppend(es, more[..|more| - 1]);
    }
  }

  lemma {:induction false} WorthAppend(table: Table, slots: seq<Slot>, more: seq<Slot>)
    requires (forall x <- slots :: x in table) && (forall x <- more :: x in table)
    ensures forall x <- slots + more :: x in table
    ensures Worth(table, slots + more) == Worth(table, slots) + Worth(table, more)
  {
    if more == [] {
      assert slots + more == slots;
    } else {
      assert (slots + more)[..|slots + more| - 1] == slots + more[..|more| - 1];
      WorthAppend(table, slots, more[..|more| - 1]);
    }
  }

  lemma {:induction false} WorthSame(table: Table, other: Table, slots: seq<Slot>)
    requires forall x <- slots :: x in table && x in other && table[x].amount == other[x].amount
    ensures Worth(table, slots) == Worth(other, slots)
  {
    if slots != [] { WorthSame(table, other, slots[..|slots| - 1]); }
  }

  lemma {:induction false} OnePayment(p: Posting, side: Side)
    requires !IsInternal(p.account)
    ensures Payments(PostingLegs(p, side)) == [Payment(p.account, p.amount)]
  {
    var legs := PostingLegs(p, side);
    assert legs == [legs[0]] + [legs[1]];
    PaymentsAppend([legs[0]], [legs[1]]);
  }

  /** A posting run pays its slots in their order. */
  lemma {:induction false} PostingPayments(table: Table, slots: seq<Slot>, names: Names, side: Side)
    requires forall x <- slots :: x in table && !IsInternal(x.account)
    ensures Payments(PostingRows(Postings(table, slots, names), side).entries) == Worth(table, slots)
  {
    if slots != [] {
      var rest, x := slots[..|slots| - 1], slots[|slots| - 1];
      assert x in slots && forall y <- rest :: y in slots;
      PostingPayments(table, rest, names, side);
      var ps := Postings(table, slots, names);
      assert ps[..|ps| - 1] == Postings(table, rest, names);
      PaymentsAppend(PostingRows(ps[..|ps| - 1], side).entries, PostingLegs(ps[|ps| - 1], side));
      OnePayment(ps[|ps| - 1], side);
    }
  }

  /** A served request pays no interest. */
  lemma {:induction false} ServedPays(s: State, id: Id, req: Ledger.Request)
    ensures Payments(Served(s, id, req).tables.entries) == Payments(s.tables.entries)
  {
    var after := Served(s, id, req);
    if after != s {
      ServedAccounts(s, id, req);
      var n, es := |s.tables.entries|, after.tables.entries;
      hide Served;
      assert es == s.tables.entries + [es[n], es[n + 1]];
      PaymentsAppend(s.tables.entries, [es[n], es[n + 1]]);
      assert [es[n], es[n + 1]] == [es[n]] + [es[n + 1]];
      PaymentsAppend([es[n]], [es[n + 1]]);
    }
  }

  lemma {:induction false} PostedPays(s: State, through: int, names: Names)
    requires Posted(s, through, names) != s
    ensures forall x <- Selection(s.accruals, through) :: x in s.accruals
    ensures Payments(Posted(s, through, names).tables.entries)
         == Payments(s.tables.entries) + Worth(s.accruals, Selection(s.accruals, through))
  {
    SelectionFacts(s.accruals, through);
    hide Selection, Postings, PostingRows, IsInternal, FreshPostings, Posted;
    var slots := Selection(s.accruals, through);
    var ps := Postings(s.accruals, slots, names);
    PostedToCustomers(s, through, names);
    PostedAppends(s, through, names);
    PaymentsAppend(s.tables.entries, PostingRows(ps, EXPENSE_SIDE).entries);
    PostingPayments(s.accruals, slots, names, EXPENSE_SIDE);
  }

  lemma {:induction false} PostedToCustomers(s: State, through: int, names: Names)
    requires Posted(s, through, names) != s
    ensures forall x <- Selection(s.accruals, through) :: x in s.accruals && !IsInternal(x.account)
  {
    SelectionFacts(s.accruals, through);
    var slots := Selection(s.accruals, through);
    var ps := Postings(s.accruals, slots, names);
    hide Selection, Postings, PostingRows, IsInternal;
    assert FreshPostings(s.tables, ps);
    PostingAccounts(s.accruals, slots, names);
    forall x | x in slots ensures !IsInternal(x.account) {
      var i :| 0 <= i < |slots| && slots[i] == x;
      assert ps[i] in ps && ps[i].account == x.account;
    }
  }

  lemma {:induction false} PostedAppends(s: State, through: int, names: Names)
    requires Posted(s, through, names) != s
    ensures Posted(s, through, names).tables
         == Append(s.tables, PostingRows(Postings(s.accruals, Selection(s.accruals, through), names), EXPENSE_SIDE))
  {
    hide Selection, Postings, PostingRows, FreshPostings;
  }

  /** An accrual once made keeps its amount. */
  lemma {:induction false} NextKeepsAmounts(s: State, op: Bank.Op)
    requires Enabled(s, op)
    ensures forall x <- s.accruals :: x in Next(s, op).accruals && Next(s, op).accruals[x].amount == s.accruals[x].amount
  {
    match op
    case Create(_, _) =>
    case Freeze(_) =>
    case Close(_) =>
    case Request(_, _) => hide Apply;
    case Accrue(date, rate, order, fault) =>
      if rate.Some? { AccrueAllKeeps(s.accruals, a => Balance(s.tables.entries, a), date, rate.value, order, fault); }
      hide AccrueAll;
    case PostThrough(through, _) => hide Selection, Apply, Postings;
  }

  lemma {:induction false} RunKeepsAmounts(s: State, ops: seq<Bank.Op>)
    requires IsRun(s, ops)
    ensures forall x <- s.accruals :: x in Run(s, ops).accruals && Run(s, ops).accruals[x].amount == s.accruals[x].amount
    decreases |ops|
  {
    hide Next, Enabled;
    if ops != [] {
      NextKeepsAmounts(s, ops[0]);
      RunKeepsAmounts(Next(s, ops[0]), ops[1..]);
    }
  }

  /** One operation pays what it posts. */
  lemma {:induction false} NextPays(s: State, op: Bank.Op)
    requires Enabled(s, op)
    ensures forall x <- PostedBy(s, op) :: x in s.accruals
    ensures Payments(Next(s, op).tables.entries) == Payments(s.tables.entries) + Worth(s.accruals, PostedBy(s, op))
  {
    match op
    case Create(_, _) =>
    case Freeze(_) =>
    case Close(_) =>
    case Request(id, req) => ServedPays(s, id, req); hide Served;
    case Accrue(_, _, _, _) => hide AccrueAll;
    case PostThrough(through, names) =>
      if Posted(s, through, names) != s { PostedPays(s, through, names); }
      hide Posted, Selection;
  }

  /** The interest legs of the ledger are, in order, the accounts and amounts of the posted
      slots: every posting of the run pays what was accrued, once, and to that account. */
  lemma {:induction false} PaidAsPosted(s: State, ops: seq<Bank.Op>)
    requires IsRun(s, ops)
    ensures forall x <- PostingLog(s, ops) :: x in Run(s, ops).accruals
    ensures Payments(Run(s, ops).tables.entries)
         == Payments(s.tables.entries) + Worth(Run(s, ops).accruals, PostingLog(s, ops))
    decreases |ops|
  {
    hide Next, Enabled, PostedBy, Payments, Worth;
    if ops == [] {
      NoWorth(s.accruals, Payments(s.tables.entries));
    } else {
      var t, first, last := Next(s, ops[0]), PostedBy(s, ops[0]), Run(s, ops).accruals;
      NextPays(s, ops[0]);
      PaidAsPosted(t, ops[1..]);
      NextKeepsAmounts(s, ops[0]);
      RunKeepsAmounts(t, ops[1..]);
      WorthSame(s.accruals, last, first);
      WorthAppend(last, first, PostingLog(t, ops[1..]));
    }
  }

  lemma {:induction false} NoWorth(table: Table, payments: seq<Payment>)
    ensures payments + Worth(table, []) == payments
  {
  }

  // ---------- Posting composes ----------

  lemma {:induction false} PostingRowsAppend(ps: seq<Posting>, qs: seq<Posting>, side: Side)
    ensures PostingRows(ps + qs, side) == Append(PostingRows(ps, side), PostingRows(qs, side))
  {
    if qs == [] {
      assert ps + qs == ps;
    } else {
      var init := qs[..|qs| - 1];
      assert (ps + qs)[..|ps + qs| - 1] == ps + init;
      PostingRowsAppend(ps, init, side);
    }
  }

  lemma {:induction false} PostingsSame(table: Table, other: Table, slots: seq<Slot>, names: Names)
    requires forall x <- slots :: x in table && x in other && table[x].amount == other[x].amount
    ensures Postings(table, slots, names) == Postings(other, slots, names)
  {
    if slots != [] { PostingsSame(table, other, slots[..|slots| - 1], names); }
  }

  lemma {:induction false} PostingsAppend(table: Table, slots: seq<Slot>, more: seq<Slot>, names: Names)
    requires (forall x <- slots :: x in table) && (forall x <- more :: x in table)
    ensures forall x <- slots + more :: x in table
    ensures Postings(table, slots + more, names) == Postings(table, slots, names) + Postings(table, more, names)
  {
    if more == [] {
      assert slots + more == slots;
    } else {
      var init := more[..|more| - 1];
      assert (slots + more)[..|slots + more| - 1] == slots + init;
      PostingsAppend(table, slots, init, names);
    }
  }

  /** The selection through the later date is the earlier selection followed by what is
      selected after posting it. */
  lemma {:induction false} SelectionSplits(table: Table, d1: int, d2: int)
    requires d1 <= d2
    ensures var first := Selection(table, d1);
            Selection(table, d2) == first + Selection(MarkPosted(table, first), d2)
  {
    var first := Selection(table, d1);
    var early, late := Unposted(table, d1), Unposted(MarkPosted(table, first), d2);
    assert Unposted(table, d2) == early + late;
    forall x, y | x in early && y in late ensures Before(x, y) {
      assert y !in first;
    }
    SortedSplit(early, late);
  }

  lemma {:induction false} MarkMarked(table: Table, first: seq<Slot>, second: seq<Slot>)
    ensures MarkPosted(MarkPosted(table, first), second) == MarkPosted(table, first + second)
  {
  }

  /** A posting with another id and key than all of `ps` is not among their rows. */
  lemma {:induction false} NotAmong(ps: seq<Posting>, side: Side, q: Posting)
    requires forall i | 0 <= i < |ps| :: ps[i].id != q.id && ps[i].key != q.key
    ensures !IdUsed(PostingRows(ps, side), q.id) && !KeyUsed(PostingRows(ps, side), q.key)
  {
    hide PostingRows;
    EngineInvariants.PostingTxns(ps, side);
  }

  /** Fresh postings can be made in two runs. */
  lemma {:induction false} FreshSplit(db: Tables, ps: seq<Posting>, qs: seq<Posting>, side: Side)
    requires FreshPostings(db, ps + qs)
    ensures FreshPostings(db, ps) && FreshPostings(Append(db, PostingRows(ps, side)), qs)
  {
    hide PostingRows, IdUsed, KeyUsed, Append;
    var all, after := ps + qs, Append(db, PostingRows(ps, side));
    assert forall i | 0 <= i < |ps| :: ps[i] == all[i];
    assert forall i | 0 <= i < |qs| :: qs[i] == all[|ps| + i];
    assert forall p <- ps :: p in all;
    forall q | q in qs ensures q in all && !IdUsed(after, q.id) && !KeyUsed(after, q.key) {
      var j :| 0 <= j < |qs| && qs[j] == q;
      assert q == all[|ps| + j];
      NotAmong(ps, side, q);
      EngineInvariants.IdUsedAppend(db, PostingRows(ps, side), q.id);
      EngineInvariants.KeyUsedAppend(db, PostingRows(ps, side), q.key);
    }
  }

  /** Posting with fresh names appends the rows of the selection, in order, and marks it. */
  lemma {:induction false} PostedIsAppend(s: State, through: int, names: Names)
    requires FreshPostings(s.tables, Postings(s.accruals, Selection(s.accruals, through), names))
    ensures var slots := Selection(s.accruals, through);
            && Posted(s, through, names).accounts == s.accounts
            && Posted(s, through, names).tables
            == Append(s.tables, PostingRows(Postings(s.accruals, slots, names), EXPENSE_SIDE))
            && Posted(s, through, names).accruals == MarkPosted(s.accruals, slots)
  {
    hide FreshPostings, Selection;
  }

  /** Posting composes: posting through an earlier date and then through a later one writes
      the same rows in the same order, and marks the same accruals, as posting once. */
  lemma {:induction false} PostingComposes(s: State, d1: int, d2: int, names: Names)
    requires d1 <= d2
    requires FreshPostings(s.tables, Postings(s.accruals, Selection(s.accruals, d2), names))
    ensures Posted(Posted(s, d1, names), d2, names) == Posted(s, d2, names)
  {
    var first := Selection(s.accruals, d1);
    var marked := MarkPosted(s.accruals, first);
    var second := Selection(marked, d2);
    SelectionSplits(s.accruals, d1, d2);
    SelectionFacts(s.accruals, d1);
    SelectionFacts(marked, d2);
    assert forall x <- second :: x in s.accruals && s.accruals[x].amount == marked[x].amount;
    PostingsAppend(s.accruals, first, second, names);
    PostingsSame(s.accruals, marked, second, names);
    MarkMarked(s.accruals, first, second);
    hide Selection, Postings, FreshPostings, PostingRows, MarkPosted;
    var ps, qs := Postings(s.accruals, first, names), Postings(marked, second, names);
    FreshSplit(s.tables, ps, qs, EXPENSE_SIDE);
    PostingRowsAppend(ps, qs, EXPENSE_SIDE);
    PostedIsAppend(s, d1, names);
    PostedIsAppend(Posted(s, d1, names), d2, names);
    PostedIsAppend(s, d2, names);
    AppendTwice(s.tables, PostingRows(ps, EXPENSE_SIDE), PostingRows(qs, EXPENSE_SIDE));
  }

  lemma {:induction false} AppendTwice(db: Tables, more: Tables, last: Tables)
    ensures Append(Append(db, more), last) == Append(db, Append(more, last))
  {
  }

  /** With nothing to select, a posting run leaves everything as it is. */
  lemma {:induction false} NothingToPost(s: State, through: int, names: Names)
    requires Unposted(s.accruals, through) == {}
    ensures Posted(s, through, names) == s
  {
    assert Selection(s.accruals, through) == [];
    hide Selection, Sorted;
    EngineInvariants.AppendEmpty(s.tables);
    assert MarkPosted(s.accruals, []) == s.accruals;
  }

  /** Posting again writes nothing. */
  lemma {:induction false} RepostWritesNothing(s: State, through: int, names: Names, again: Names)
    requires FreshPostings(s.tables, Postings(s.accruals, Selection(s.accruals, through), names))
    ensures Posted(Posted(s, through, names), through, again) == Posted(s, through, names)
  {
    SelectionFacts(s.accruals, through);
    PostedIsAppend(s, through, names);
    hide Selection, Postings, FreshPostings, PostingRows, Posted;
    var after := Posted(s, through, names);
    assert Unposted(after.accruals, through) == {};
    NothingToPost(after, through, again);
  }
}
