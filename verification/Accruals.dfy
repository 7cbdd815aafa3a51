/** The accrual table and the order in which unposted accruals are posted. */
module Accruals {
  import opened Common
  import opened Ledger
  import LexOrder

  /** The unique key of an accrual: one per account and date. */
  datatype Slot = Slot(date: int, account: AccountId)

  datatype Accrual = Accrual(principal: int, rate: nat, amount: int, posted: bool)

  type Table = map<Slot, Accrual>

  /** ORDER BY accrual_date, account_id */
  predicate Before(x: Slot, y: Slot) {
    x.date < y.date || (x.date == y.date && LexOrder.Less(x.account, y.account))
  }

  lemma {:induction false} BeforeTotal(x: Slot, y: Slot)
    ensures Before(x, y) || x == y || Before(y, x)
  {
    LexOrder.Trichotomy(x.account, y.account);
  }

  lemma {:induction false} BeforeTransitive(x: Slot, y: Slot, z: Slot)
    requires Before(x, y) && Before(y, z)
    ensures Before(x, z)
  {
    if x.date == y.date == z.date { LexOrder.Transitive(x.account, y.account, z.account); }
    hide LexOrder.Less;
  }

  lemma {:induction false} BeforeIrreflexive(x: Slot)
    ensures !Before(x, x)
  {
    LexOrder.Irreflexive(x.account);
  }

  predicate IsFirst(slots: set<Slot>, x: Slot) {
    x in slots && forall y | y in slots && y != x :: Before(x, y)
  }

  lemma {:induction false} FirstExists(slots: set<Slot>)
    requires slots != {}
    ensures exists x :: IsFirst(slots, x)
  {
    var y :| y in slots;
    if slots == {y} {
      assert IsFirst(slots, y);
    } else {
      var rest := slots - {y};
      assert slots == rest + {y};
      FirstExists(rest);
      var x :| IsFirst(rest, x);
      BeforeTotal(x, y);
      hide Before;
      if Before(x, y) {
        assert IsFirst(slots, x);
      } else {
        forall z | z in slots && z != y ensures Before(y, z) {
          if z != x { BeforeTransitive(y, x, z); }
        }
        assert IsFirst(slots, y);
      }
    }
  }

  /** The slots in posting order. */
  ghost function Sorted(slots: set<Slot>): (order: seq<Slot>)
    ensures forall x :: x in order <==> x in slots
    ensures |order| == |slots|
  {
    if slots == {} then []
    else
      FirstExists(slots);
      var x :| IsFirst(slots, x);
      [x] + Sorted(slots - {x})
  }

  lemma {:induction false} FirstUnique(slots: set<Slot>, x: Slot, y: Slot)
    requires IsFirst(slots, x) && IsFirst(slots, y)
    ensures x == y
  {
    if x != y {
      assert Before(x, y) && Before(y, x);
      BeforeTransitive(x, y, x);
      BeforeIrreflexive(x);
    }
  }

  /** Sorting picks the first slot, whichever way it is found. */
  lemma {:induction false} SortedFirst(slots: set<Slot>, x: Slot)
    requires IsFirst(slots, x)
    ensures Sorted(slots) == [x] + Sorted(slots - {x})
  {
    FirstExists(slots);
    var y :| IsFirst(slots, y) && Sorted(slots) == [y] + Sorted(slots - {y});
    FirstUnique(slots, x, y);
  }

  predicate Distinct(slots: seq<Slot>) { forall i, j | 0 <= i < j < |slots| :: slots[i] != slots[j] }

  lemma {:induction false} DistinctConcat(first: seq<Slot>, rest: seq<Slot>)
    requires Distinct(first) && Distinct(rest) && forall x <- rest :: x !in first
    ensures Distinct(first + rest)
  {
    var all := first + rest;
    forall i, j | 0 <= i < j < |all| ensures all[i] != all[j] {
      if i < |first| <= j { assert all[i] in first && all[j] in rest; }
    }
  }

  lemma {:induction false} FewDistinct(x: Slot)
    ensures Distinct([]) && Distinct([x])
  {
  }

  lemma {:induction false} SortedDistinct(slots: set<Slot>)
    ensures Distinct(Sorted(slots))
  {
    hide Distinct;
    if slots != {} {
      FirstExists(slots);
      var x :| IsFirst(slots, x);
      SortedFirst(slots, x);
      SortedDistinct(slots - {x});
      hide IsFirst, Sorted;
      FewDistinct(x);
      DistinctConcat([x], Sorted(slots - {x}));
    } else {
      var x: Slot := Slot(0, "");
      FewDistinct(x);
    }
  }

  lemma {:induction false} SortedSplitStep(early: set<Slot>, late: set<Slot>, x: Slot)
    requires IsFirst(early, x) && IsFirst(early + late, x) && x !in late
    requires Sorted((early - {x}) + late) == Sorted(early - {x}) + Sorted(late)
    ensures Sorted(early + late) == Sorted(early) + Sorted(late)
  {
    hide IsFirst, Sorted;
    SortedFirst(early, x);
    SortedFirst(early + late, x);
    assert (early + late) - {x} == (early - {x}) + late;
    Associative([x], Sorted(early - {x}), Sorted(late));
  }

  lemma {:induction false} Associative(some: seq<Slot>, more: seq<Slot>, rest: seq<Slot>)
    ensures some + (more + rest) == (some + more) + rest
  {
  }

  /** If every slot of `early` comes before every slot of `late`, sorting both together is
      sorting one and then the other. */
  lemma {:induction false} SortedSplit(early: set<Slot>, late: set<Slot>)
    requires forall x, y | x in early && y in late :: Before(x, y)
    ensures Sorted(early + late) == Sorted(early) + Sorted(late)
    decreases early
  {
    hide Before;
    if early == {} {
      assert early + late == late;
      assert Sorted(early) == [];
    } else {
      hide Sorted;
      FirstExists(early);
      var x :| IsFirst(early, x);
      FirstOfUnion(early, late, x);
      SortedSplit(early - {x}, late);
      SortedSplitStep(early, late, x);
    }
  }

  lemma {:induction false} FirstOfUnion(early: set<Slot>, late: set<Slot>, x: Slot)
    requires IsFirst(early, x) && forall y, z | y in early && z in late :: Before(y, z)
    ensures IsFirst(early + late, x) && x !in late && x in early
  {
    BeforeIrreflexive(x);
    hide Before;
  }

  // ---------- Sums ----------

  /** The total amount accrued in a set of slots. */
  ghost function Total(table: Table, slots: set<Slot>): int
    requires slots <= table.Keys
  {
    if slots == {} then 0
    else
      FirstExists(slots);
      var x :| IsFirst(slots, x);
      table[x].amount + Total(table, slots - {x})
  }

  lemma {:induction false} TotalAdd(table: Table, slots: set<Slot>, x: Slot)
    requires slots <= table.Keys && x in slots
    ensures Total(table, slots) == table[x].amount + Total(table, slots - {x})
    decreases slots
  {
    FirstExists(slots);
    var y :| IsFirst(slots, y) && Total(table, slots) == table[y].amount + Total(table, slots - {y});
    if x != y {
      TotalAdd(table, slots - {y}, x);
      assert slots - {y} - {x} == slots - {x} - {y};
      TotalAdd(table, slots - {x}, y);
    }
  }

  lemma {:induction false} TotalUnion(table: Table, some: set<Slot>, others: set<Slot>)
    requires some <= table.Keys && others <= table.Keys && some !! others
    ensures Total(table, some + others) == Total(table, some) + Total(table, others)
    decreases some
  {
    if some == {} {
      assert some + others == others;
    } else {
      var x :| x in some;
      TotalAdd(table, some, x);
      TotalAdd(table, some + others, x);
      assert some + others - {x} == (some - {x}) + others;
      TotalUnion(table, some - {x}, others);
    }
  }

  /** The sum depends only on the amounts. */
  lemma {:induction false} TotalSame(table: Table, other: Table, slots: set<Slot>)
    requires slots <= table.Keys && slots <= other.Keys
    requires forall x | x in slots :: table[x].amount == other[x].amount
    ensures Total(table, slots) == Total(other, slots)
    decreases slots
  {
    if slots != {} {
      var x :| x in slots;
      TotalAdd(table, slots, x);
      TotalAdd(other, slots, x);
      TotalSame(table, other, slots - {x});
    }
  }

  // ---------- Selection and postings ----------

  /** WHERE posted = FALSE AND accrual_date <= through */
  function Unposted(table: Table, through: int): set<Slot> {
    set x | x in table && !table[x].posted && x.date <= through
  }

  /** The rows a posting run takes, in its order. */
  ghost function Selection(table: Table, through: int): seq<Slot> { Sorted(Unposted(table, through)) }

  /** The transaction id and key generated for each slot that is posted. */
  datatype Names = Names(id: Slot -> Id, key: Slot -> Key)

  function PostingOf(table: Table, x: Slot, names: Names): Posting
    requires x in table
  {
    Posting(names.id(x), names.key(x), x.account, table[x].amount)
  }

  function Postings(table: Table, slots: seq<Slot>, names: Names): seq<Posting>
    requires forall x <- slots :: x in table
  {
    if slots == [] then []
    else Postings(table, slots[..|slots| - 1], names) + [PostingOf(table, slots[|slots| - 1], names)]
  }

  function MarkPosted(table: Table, slots: seq<Slot>): Table {
    map x | x in table :: if x in slots then table[x].(posted := true) else table[x]
  }
}
