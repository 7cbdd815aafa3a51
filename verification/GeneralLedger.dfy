/** The general ledger: balanced journal posting, the chart of accounts and the trial
    balance. */
module GeneralLedger {
  import opened Common
  import opened Decimals

  datatype Class = Asset | Liability | Equity | Revenue | Expense

  datatype GLAccount = GLAccount(code: string, accountClass: Class, normal: Side)

  /** A line as submitted: its side is free text, its amount has any number of decimals. */
  datatype Line = Line(account: string, side: string, amount: real)

  const DEBIT := "DEBIT"
  const CREDIT := "CREDIT"

  /** A stored line. */
  datatype Row = Row(journal: nat, account: string, side: Side, amount: int)

  datatype Journal = Journal(id: nat, reference: string, key: string)

  datatype Event = Event(journal: nat, reference: string, totalDebits: real, totalCredits: real)

  datatype Books = Books(chart: seq<GLAccount>, journals: seq<Journal>, rows: seq<Row>, outbox: seq<Event>)

  datatype Outcome = Posted | NoEntries | Unbalanced | DatabaseError

  // ---------- Posting ----------

  function TotalOf(lines: seq<Line>, side: string): real {
    if lines == [] then 0.0
    else TotalOf(lines[..|lines| - 1], side) + (if lines[|lines| - 1].side == side then lines[|lines| - 1].amount else 0.0)
  }

  predicate HasCode(chart: seq<GLAccount>, code: string) { exists g <- chart :: g.code == code }

  /** The schema's conditions on one line. */
  predicate Storable(chart: seq<GLAccount>, line: Line) {
    && (line.side == DEBIT || line.side == CREDIT) && HasCode(chart, line.account)
    && Round(line.amount) > 0 && Fits(Round(line.amount))
  }

  function StoredLine(journal: nat, line: Line): Row {
    Row(journal, line.account, if line.side == DEBIT then Debit else Credit, Round(line.amount))
  }

  function StoredLines(journal: nat, lines: seq<Line>): seq<Row> {
    if lines == [] then []
    else StoredLines(journal, lines[..|lines| - 1]) + [StoredLine(journal, lines[|lines| - 1])]
  }

  predicate NewJournal(books: Books, je: Journal) {
    forall j <- books.journals :: j.id != je.id && j.reference != je.reference && j.key != je.key
  }

  /** What posting does when no database call fails by itself. */
  function Post(books: Books, je: Journal, lines: seq<Line>): (Books, Outcome) {
    var debits, credits := TotalOf(lines, DEBIT), TotalOf(lines, CREDIT);
    if lines == [] then (books, NoEntries)
    else if debits != credits then (books, Unbalanced)
    else if !NewJournal(books, je) || exists line <- lines :: !Storable(books.chart, line) then (books, DatabaseError)
    else
      (books.(journals := books.journals + [je], rows := books.rows + StoredLines(je.id, lines),
              outbox := books.outbox + [Event(je.id, je.reference, debits, credits)]), Posted)
  }

  // ---------- The trial balance ----------

  /** One account's balance, counted in its normal direction. */
  function AccountBalance(rows: seq<Row>, g: GLAccount): int {
    if rows == [] then 0
    else
      var r := rows[|rows| - 1];
      AccountBalance(rows[..|rows| - 1], g)
      + (if r.account != g.code then 0 else if r.side == g.normal then r.amount else -r.amount)
  }

  /** The balances of one class added up. */
  function ClassTotal(chart: seq<GLAccount>, rows: seq<Row>, accountClass: Class): int {
    if chart == [] then 0
    else
      var g := chart[|chart| - 1];
      ClassTotal(chart[..|chart| - 1], rows, accountClass)
      + (if g.accountClass == accountClass then AccountBalance(rows, g) else 0)
  }

  /** Stored debits minus stored credits, all accounts together. */
  function NetDebits(rows: seq<Row>): int {
    if rows == [] then 0
    else
      var r := rows[|rows| - 1];
      NetDebits(rows[..|rows| - 1]) + (if r.side == Debit then r.amount else -r.amount)
  }

  // ---------- The service ----------

  class Service {
    var chart: seq<GLAccount>
    var journals: seq<Journal>
    var rows: seq<Row>
    var outbox: seq<Event>

    constructor ()
      ensures State() == Books([], [], [], [])
    {
      chart, journals, rows, outbox := [], [], [], [];
    }

    function State(): Books
      reads this
    {
      Books(chart, journals, rows, outbox)
    }

    method FindAccount(code: string) returns (found: bool)
      ensures found == HasCode(chart, code)
    {
      found := false;
      var i := 0;
      while i < |chart|
        invariant 0 <= i <= |chart|
        invariant found <==> exists j | 0 <= j < i :: chart[j].code == code
      {
        if chart[i].code == code { found := true; }
        i := i + 1;
      }
    }

    /** INSERT INTO journal_entries: id, reference and key are unique. */
    method CreateJournalEntry(je: Journal) returns (ok: bool)
      modifies this`journals
      ensures ok == NewJournal(old(State()), je)
      ensures journals == if ok then old(journals) + [je] else old(journals)
    {
      ok := true;
      var i := 0;
      while i < |journals|
        invariant 0 <= i <= |journals|
        invariant ok <==> forall j <- journals[..i] :: j.id != je.id && j.reference != je.reference && j.key != je.key
      {
        var j := journals[i];
        assert journals[..i + 1] == journals[..i] + [j];
        if j.id == je.id || j.reference == je.reference || j.key == je.key { ok := false; }
        i := i + 1;
      }
      assert journals[..i] == journals;
      if ok { journals := journals + [je]; }
    }

    /** INSERT INTO gl_entries */
    method CreateGLEntry(journal: nat, line: Line) returns (ok: bool)
      modifies this`rows
      ensures ok == Storable(chart, line)
      ensures rows == if ok then old(rows) + [StoredLine(journal, line)] else old(rows)
    {
      var known := FindAccount(line.account);
      ok := (line.side == DEBIT || line.side == CREDIT) && known && Round(line.amount) > 0 && Fits(Round(line.amount));
      if ok { rows := rows + [StoredLine(journal, line)]; }
    }

    /** The transaction body: journal header, every line, one outbox event; `fault` is the
        line whose insert fails by itself, or the event when it equals the number of lines. */
    method PostInTx(je: Journal, lines: seq<Line>, debits: real, credits: real, fault: Option<nat>) returns (ok: bool)
      modifies this`journals, this`rows, this`outbox
      ensures ok ==> NewJournal(old(State()), je) && forall line <- lines :: Storable(chart, line)
      ensures !ok && fault == None ==> !NewJournal(old(State()), je) || exists line <- lines :: !Storable(chart, line)
      ensures ok ==> State() == old(State()).(journals := old(journals) + [je],
                                              rows := old(rows) + StoredLines(je.id, lines),
                                              outbox := old(outbox) + [Event(je.id, je.reference, debits, credits)])
    {
      hide Storable, NewJournal, StoredLine, StoredLines;
      NoneStored(rows, je.id);
      ok := CreateJournalEntry(je);
      if !ok { return; }
      var i := 0;
      while i < |lines|
        invariant 0 <= i <= |lines| && ok
        invariant journals == old(journals) + [je] && outbox == old(outbox)
        invariant rows == old(rows) + StoredLines(je.id, lines[..i])
        invariant forall j | 0 <= j < i :: Storable(chart, lines[j])
      {
        OneMoreStored(old(rows), je.id, lines, i);
        if fault == Some(i) { return false; }
        ok := CreateGLEntry(je.id, lines[i]);
        if !ok { return; }
        i := i + 1;
      }
      assert lines[..i] == lines;
      if fault == Some(i) { return false; }
      outbox := outbox + [Event(je.id, je.reference, debits, credits)];
    }

    /** Post a journal entry: all of it or none of it. */
    method PostJournalEntry(je: Journal, lines: seq<Line>, fault: Option<nat>) returns (outcome: Outcome)
      modifies this`journals, this`rows, this`outbox
      ensures fault == None ==> (State(), outcome) == Post(old(State()), je, lines)
      ensures outcome == Posted ==> (State(), outcome) == Post(old(State()), je, lines)
      ensures outcome != Posted ==> State() == old(State())
    {
      if |lines| == 0 { return NoEntries; }
      var totalDebits, totalCredits := 0.0, 0.0;
      var i := 0;
      while i < |lines|
        invariant 0 <= i <= |lines|
        invariant totalDebits == TotalOf(lines[..i], DEBIT) && totalCredits == TotalOf(lines[..i], CREDIT)
      {
        assert lines[..i + 1][..i] == lines[..i];
        if lines[i].side == DEBIT {
          totalDebits := totalDebits + lines[i].amount;
        } else if lines[i].side == CREDIT {
          totalCredits := totalCredits + lines[i].amount;
        }
        i := i + 1;
      }
      assert lines[..i] == lines;
      if totalDebits != totalCredits { return Unbalanced; }
      var savedJournals, savedRows, savedOutbox := journals, rows, outbox;
      var ok := PostInTx(je, lines, totalDebits, totalCredits, fault);
      if ok {
        outcome := Posted;
      } else {
        journals, rows, outbox := savedJournals, savedRows, savedOutbox;
        outcome := DatabaseError;
      }
    }

    method BalanceOf(g: GLAccount) returns (balance: int)
      ensures balance == AccountBalance(rows, g)
    {
      balance := 0;
      var i := 0;
      while i < |rows|
        invariant 0 <= i <= |rows|
        invariant balance == AccountBalance(rows[..i], g)
      {
        assert rows[..i + 1][..i] == rows[..i];
        if rows[i].account == g.code {
          balance := if rows[i].side == g.normal then balance + rows[i].amount else balance - rows[i].amount;
        }
        i := i + 1;
      }
      assert rows[..i] == rows;
    }

    /** The balance of every account, and whether assets equal liabilities plus equity. */
    method GetTrialBalance() returns (balances: seq<int>, balanced: bool)
      ensures |balances| == |chart|
      ensures forall i | 0 <= i < |chart| :: balances[i] == AccountBalance(rows, chart[i])
      ensures balanced <==>
        ClassTotal(chart, rows, Asset) == ClassTotal(chart, rows, Liability) + ClassTotal(chart, rows, Equity)
    {
      balances := [];
      var assets, liabilities, equity := 0, 0, 0;
      var i := 0;
      while i < |chart|
        invariant 0 <= i <= |chart| && |balances| == i
        invariant forall j | 0 <= j < i :: balances[j] == AccountBalance(rows, chart[j])
        invariant assets == ClassTotal(chart[..i], rows, Asset)
        invariant liabilities == ClassTotal(chart[..i], rows, Liability)
        invariant equity == ClassTotal(chart[..i], rows, Equity)
      {
        assert chart[..i + 1][..i] == chart[..i];
        var balance := BalanceOf(chart[i]);
        balances := balances + [balance];
        match chart[i].accountClass {
          case Asset => assets := assets + balance;
          case Liability => liabilities := liabilities + balance;
          case Equity => equity := equity + balance;
          case _ =>
        }
        i := i + 1;
      }
      assert chart[..i] == chart;
      balanced := assets == liabilities + equity;
    }

    /** Create the standard accounts that are missing, each in its own transaction; `fault` is
        the one whose insert fails, which ends the seeding. */
    method SeedChartOfAccounts(fault: Option<nat>) returns (ok: bool)
      modifies this`chart
      ensures chart == Seeded(old(chart), STANDARD_CHART, fault)
      ensures fault == None ==> ok
      ensures ok ==> chart == Seeded(old(chart), STANDARD_CHART, None)
    {
      ok := true;
      var i := 0;
      var left := fault;
      while i < |STANDARD_CHART| && ok
        invariant 0 <= i <= |STANDARD_CHART|
        invariant fault == None ==> left == None && ok
        invariant ok ==> Seeded(chart, STANDARD_CHART[i..], None) == Seeded(old(chart), STANDARD_CHART, None)
        invariant ok ==> Seeded(chart, STANDARD_CHART[i..], left) == Seeded(old(chart), STANDARD_CHART, fault)
        invariant !ok ==> chart == Seeded(old(chart), STANDARD_CHART, fault)
      {
        var g := STANDARD_CHART[i];
        assert STANDARD_CHART[i..][0] == g && STANDARD_CHART[i..][1..] == STANDARD_CHART[i + 1..];
        var existing := FindAccount(g.code);
        if !existing {
          if left == Some(0) { ok := false; } else { chart := chart + [g]; }
        }
        left := if left == None || left.value == 0 then None else Some(left.value - 1);
        i := i + 1;
      }
      assert ok ==> STANDARD_CHART[i..] == [];
    }
  }

  // ---------- The chart ----------

  const STANDARD_CHART: seq<GLAccount> := [
    GLAccount("1000", Asset, Debit), GLAccount("1100", Asset, Debit),
    GLAccount("2000", Liability, Credit), GLAccount("2100", Liability, Credit),
    GLAccount("3000", Equity, Credit),
    GLAccount("4000", Revenue, Credit), GLAccount("4100", Revenue, Credit),
    GLAccount("5000", Expense, Debit), GLAccount("5100", Expense, Debit)]

  /** Add the missing accounts of `wanted` in order, up to a failing insert. */
  function Seeded(chart: seq<GLAccount>, wanted: seq<GLAccount>, fault: Option<nat>): seq<GLAccount>
    decreases |wanted|
  {
    if wanted == [] then chart
    else
      var left := if fault == None || fault.value == 0 then None else Some(fault.value - 1);
      if HasCode(chart, wanted[0].code) then Seeded(chart, wanted[1..], left)
      else if fault == Some(0) then chart
      else Seeded(chart + [wanted[0]], wanted[1..], left)
  }

  predicate DistinctCodes(chart: seq<GLAccount>) { forall i, j | 0 <= i < j < |chart| :: chart[i].code != chart[j].code }

  /** Codes are unique, and the normal side is the usual one for the class. */
  predicate Conventional(chart: seq<GLAccount>) {
    && DistinctCodes(chart)
    && (forall g <- chart :: g.normal == Debit <==> g.accountClass == Asset || g.accountClass == Expense)
  }

  /** However often seeding fails and is run again, the chart stays conventional. */
  lemma {:induction false} SeedingKeepsConventional(chart: seq<GLAccount>, wanted: seq<GLAccount>, fault: Option<nat>)
    requires Conventional(chart)
    requires forall g <- wanted :: g.normal == Debit <==> g.accountClass == Asset || g.accountClass == Expense
    ensures Conventional(Seeded(chart, wanted, fault))
    ensures chart <= Seeded(chart, wanted, fault)
    decreases |wanted|
  {
    if wanted != [] {
      var left := if fault == None || fault.value == 0 then None else Some(fault.value - 1);
      if HasCode(chart, wanted[0].code) {
        SeedingKeepsConventional(chart, wanted[1..], left);
      } else if fault != Some(0) {
        SeedingKeepsConventional(chart + [wanted[0]], wanted[1..], left);
      }
    }
  }

  /** Seeding that meets no failure leaves nothing to seed. */
  lemma {:induction false} SeedingCompletes(chart: seq<GLAccount>, wanted: seq<GLAccount>)
    ensures forall g <- wanted :: HasCode(Seeded(chart, wanted, None), g.code)
    ensures forall c | HasCode(chart, c) :: HasCode(Seeded(chart, wanted, None), c)
    decreases |wanted|
  {
    if wanted != [] {
      var more := chart + [wanted[0]];
      SeedingCompletes(chart, wanted[1..]);
      SeedingCompletes(more, wanted[1..]);
      assert wanted[0] in more && HasCode(more, wanted[0].code);
      forall c | HasCode(chart, c) ensures HasCode(more, c) {
        var g :| g in chart && g.code == c;
        assert g in more;
      }
      assert forall g <- wanted :: g == wanted[0] || g in wanted[1..];
      hide HasCode;
    }
  }

  /** A failing insert ends the seeding with what comes before it; if the account is there
      already, nothing is inserted and nothing fails. */
  lemma {:induction false} SeedingStops(chart: seq<GLAccount>, wanted: seq<GLAccount>, k: nat)
    ensures k >= |wanted| ==> Seeded(chart, wanted, Some(k)) == Seeded(chart, wanted, None)
    ensures k < |wanted| ==>
              var before := Seeded(chart, wanted[..k], None);
              Seeded(chart, wanted, Some(k))
              == if HasCode(before, wanted[k].code) then Seeded(chart, wanted, None) else before
    decreases |wanted|
  {
    hide HasCode;
    if wanted != [] {
      if 0 < k < |wanted| { assert wanted[..k][1..] == wanted[1..][..k - 1]; }
      if k > 0 {
        SeedingStops(chart, wanted[1..], k - 1);
        SeedingStops(chart + [wanted[0]], wanted[1..], k - 1);
      }
    }
  }

  // ---------- The accounting identity ----------

  /** One row counted once, on its own account. */
  function Contribution(chart: seq<GLAccount>, r: Row): int {
    if chart == [] then 0
    else
      var g := chart[|chart| - 1];
      Contribution(chart[..|chart| - 1], r)
      + (if r.account != g.code then 0 else if r.side == Debit then r.amount else -r.amount)
  }

  lemma {:induction false} ContributionOnce(chart: seq<GLAccount>, r: Row)
    requires DistinctCodes(chart)
    ensures Contribution(chart, r)
         == if !HasCode(chart, r.account) then 0 else if r.side == Debit then r.amount else -r.amount
  {
    if chart != [] {
      var init, last := chart[..|chart| - 1], chart[|chart| - 1];
      ContributionOnce(init, r);
      assert forall g :: g in chart <==> g in init || g == last;
      if HasCode(init, r.account) {
        var g :| g in init && g.code == r.account;
        var i :| 0 <= i < |init| && init[i] == g;
        assert chart[i].code != last.code;
      }
    }
  }

  /** Debit classes minus credit classes. */
  function Equation(chart: seq<GLAccount>, rows: seq<Row>): int {
    ClassTotal(chart, rows, Asset) + ClassTotal(chart, rows, Expense)
    - ClassTotal(chart, rows, Liability) - ClassTotal(chart, rows, Equity) - ClassTotal(chart, rows, Revenue)
  }

  lemma {:induction false} ConventionalInit(chart: seq<GLAccount>)
    requires chart != [] && Conventional(chart)
    ensures Conventional(chart[..|chart| - 1])
    ensures var last := chart[|chart| - 1];
            last.normal == Debit <==> last.accountClass == Asset || last.accountClass == Expense
  {
    assert chart[|chart| - 1] in chart;
  }

  lemma {:induction false} EquationStep(chart: seq<GLAccount>, rows: seq<Row>)
    requires Conventional(chart) && rows != []
    ensures Equation(chart, rows) == Equation(chart, rows[..|rows| - 1]) + Contribution(chart, rows[|rows| - 1])
  {
    if chart != [] {
      ConventionalInit(chart);
      EquationStep(chart[..|chart| - 1], rows);
      hide Conventional;
    }
  }

  lemma {:induction false} EquationEmpty(chart: seq<GLAccount>)
    ensures Equation(chart, []) == 0
  {
    if chart != [] { EquationEmpty(chart[..|chart| - 1]); }
  }

  /** Assets and expenses exceed liabilities, equity and revenue by exactly the stored debits
      minus the stored credits. */
  lemma {:induction false} EquationIsNetDebits(chart: seq<GLAccount>, rows: seq<Row>)
    requires Conventional(chart) && forall i | 0 <= i < |rows| :: HasCode(chart, rows[i].account)
    ensures Equation(chart, rows) == NetDebits(rows)
  {
    if rows == [] {
      EquationEmpty(chart);
    } else {
      ContributionOnce(chart, rows[|rows| - 1]);
      hide HasCode, Equation, Conventional, Contribution;
      EquationIsNetDebits(chart, rows[..|rows| - 1]);
      EquationStep(chart, rows);
    }
  }

  // ---------- What posting keeps ----------

  /** Rounded debits minus rounded credits of one journal. */
  function StoredNet(lines: seq<Line>): int {
    if lines == [] then 0
    else
      var line := lines[|lines| - 1];
      StoredNet(lines[..|lines| - 1]) + (if line.side == DEBIT then Round(line.amount) else -Round(line.amount))
  }

  /** What rounding adds to the debits minus what it adds to the credits. */
  function Residue(lines: seq<Line>): real {
    if lines == [] then 0.0
    else
      var line := lines[|lines| - 1];
      var gap := Round(line.amount) as real - line.amount;
      Residue(lines[..|lines| - 1]) + (if line.side == DEBIT then gap else -gap)
  }

  /** Every amount has at most four decimals. */
  predicate Whole(lines: seq<Line>) { forall i | 0 <= i < |lines| :: lines[i].amount == Round(lines[i].amount) as real }

  predicate KnownSides(lines: seq<Line>) {
    forall i | 0 <= i < |lines| :: lines[i].side == DEBIT || lines[i].side == CREDIT
  }

  /** A balanced journal is stored with the imbalance that rounding leaves. */
  lemma {:induction false} StoredNetIsResidue(lines: seq<Line>)
    requires KnownSides(lines)
    ensures StoredNet(lines) as real == TotalOf(lines, DEBIT) - TotalOf(lines, CREDIT) + Residue(lines)
  {
    if lines != [] { StoredNetIsResidue(lines[..|lines| - 1]); }
  }

  lemma {:induction false} WholeHasNoResidue(lines: seq<Line>)
    requires Whole(lines)
    ensures Residue(lines) == 0.0
  {
    if lines != [] { WholeHasNoResidue(lines[..|lines| - 1]); }
  }

  lemma {:induction false} NoneStored(rows: seq<Row>, journal: nat)
    ensures rows + StoredLines(journal, []) == rows
  {
  }

  /** The next line is stored after the ones before it. */
  lemma {:induction false} OneMoreStored(rows: seq<Row>, journal: nat, lines: seq<Line>, i: nat)
    requires i < |lines|
    ensures rows + StoredLines(journal, lines[..i + 1])
         == (rows + StoredLines(journal, lines[..i])) + [StoredLine(journal, lines[i])]
  {
    hide StoredLine;
    assert lines[..i + 1][..i] == lines[..i];
    assert StoredLines(journal, lines[..i + 1]) == StoredLines(journal, lines[..i]) + [StoredLine(journal, lines[i])];
  }

  lemma {:induction false} NetOfMore(rows: seq<Row>, r: Row)
    ensures NetDebits(rows + [r]) == NetDebits(rows) + (if r.side == Debit then r.amount else -r.amount)
  {
    assert (rows + [r])[..|rows|] == rows;
  }

  lemma {:induction false} StoredLinesNet(rows: seq<Row>, journal: nat, lines: seq<Line>)
    ensures NetDebits(rows + StoredLines(journal, lines)) == NetDebits(rows) + StoredNet(lines)
  {
    hide NetDebits, StoredLines;
    if lines == [] {
      NoneStored(rows, journal);
    } else {
      var n := |lines| - 1;
      StoredLinesNet(rows, journal, lines[..n]);
      assert lines[..n + 1] == lines;
      OneMoreStored(rows, journal, lines, n);
      NetOfMore(rows + StoredLines(journal, lines[..n]), StoredLine(journal, lines[n]));
    }
  }

  lemma {:induction false} StoredLinesShape(journal: nat, lines: seq<Line>)
    ensures |StoredLines(journal, lines)| == |lines|
    ensures forall i | 0 <= i < |lines| :: StoredLines(journal, lines)[i] == StoredLine(journal, lines[i])
  {
    if lines != [] { StoredLinesShape(journal, lines[..|lines| - 1]); }
  }

  /** Every stored row is on an account of a conventional chart. */
  predicate Filed(books: Books) {
    Conventional(books.chart) && forall i | 0 <= i < |books.rows| :: HasCode(books.chart, books.rows[i].account)
  }

  /** A posting changes the books' imbalance by its rounding residue, an abort by nothing. */
  lemma {:induction false} PostEffect(books: Books, je: Journal, lines: seq<Line>)
    requires Filed(books)
    ensures var (after, outcome) := Post(books, je, lines);
            && Filed(after) && after.chart == books.chart
            && (outcome != Posted ==> after == books)
            && (outcome == Posted ==>
                  NetDebits(after.rows) as real == NetDebits(books.rows) as real + Residue(lines))
  {
    var (after, outcome) := Post(books, je, lines);
    if outcome == Posted {
      StoredLinesNet(books.rows, je.id, lines);
      StoredLinesShape(je.id, lines);
      assert forall i | 0 <= i < |lines| :: lines[i] in lines;
      StoredNetIsResidue(lines);
      hide HasCode, Conventional, TotalOf, Residue, StoredNet, NetDebits, StoredLines, NewJournal;
    }
  }

  /** A journal is posted exactly if it has lines, its debits equal its credits, its id, its
      reference and its key are all new, and every line has a known side, an account of the
      chart and an amount that the column accepts. */
  lemma {:induction false} PostedIff(books: Books, je: Journal, lines: seq<Line>)
    ensures Post(books, je, lines).1 == Posted <==>
              && lines != [] && TotalOf(lines, "DEBIT") == TotalOf(lines, "CREDIT")
              && (forall j <- books.journals :: j.id != je.id && j.reference != je.reference && j.key != je.key)
              && (forall line <- lines ::
                    && (line.side == "DEBIT" || line.side == "CREDIT") && (exists g <- books.chart :: g.code == line.account)
                    && 0 < Round(line.amount) && Fits(Round(line.amount)))
    ensures Post(books, je, lines).1 != Posted ==> Post(books, je, lines).0 == books
  {
    hide TotalOf, Round, Fits, StoredLines;
  }

  /** What a posted journal puts on record: itself, its lines in order, and one event. */
  lemma {:induction false} PostRecords(books: Books, je: Journal, lines: seq<Line>)
    requires Post(books, je, lines).1 == Posted
    ensures var after, n := Post(books, je, lines).0, |books.rows|;
            && after.chart == books.chart && after.journals == books.journals + [je]
            && |after.rows| == n + |lines| && after.rows[..n] == books.rows
            && (forall i | 0 <= i < |lines| ::
                  after.rows[n + i] == Row(je.id, lines[i].account, if lines[i].side == "CREDIT" then Credit else Debit,
                                           Round(lines[i].amount)))
            && after.outbox
            == books.outbox + [Event(je.id, je.reference, TotalOf(lines, "DEBIT"), TotalOf(lines, "CREDIT"))]
  {
    StoredLinesShape(je.id, lines);
    assert forall i | 0 <= i < |lines| :: lines[i] in lines;
    hide TotalOf, Round, Fits, StoredLines, NewJournal, HasCode;
  }

  datatype Request = Request(je: Journal, lines: seq<Line>, aborted: bool)

  /** Any sequence of posts, each of which may be aborted. */
  function PostMany(books: Books, requests: seq<Request>): Books
    decreases |requests|
  {
    if requests == [] then books
    else
      var r := requests[0];
      PostMany(if r.aborted then books else Post(books, r.je, r.lines).0, requests[1..])
  }

  lemma {:induction false} PostManyKeeps(books: Books, requests: seq<Request>)
    requires Filed(books) && NetDebits(books.rows) == 0
    requires forall i | 0 <= i < |requests| :: Whole(requests[i].lines)
    ensures Filed(PostMany(books, requests)) && NetDebits(PostMany(books, requests).rows) == 0
    ensures PostMany(books, requests).chart == books.chart
    decreases |requests|
  {
    if requests != [] {
      var r := requests[0];
      PostEffect(books, r.je, r.lines);
      WholeHasNoResidue(r.lines);
      hide Filed, NetDebits, Post, Residue;
      PostManyKeeps(if r.aborted then books else Post(books, r.je, r.lines).0, requests[1..]);
    }
  }

  /** No two journals share an id, a reference or an idempotency key, and every stored amount
      is positive. */
  predicate OnceEach(books: Books) {
    && (forall i, j | 0 <= i < j < |books.journals| ::
          && books.journals[i].id != books.journals[j].id
          && books.journals[i].reference != books.journals[j].reference
          && books.journals[i].key != books.journals[j].key)
    && (forall i | 0 <= i < |books.rows| :: books.rows[i].amount > 0)
  }

  lemma {:induction false} PostKeepsOnceEach(books: Books, je: Journal, lines: seq<Line>)
    requires OnceEach(books)
    ensures OnceEach(Post(books, je, lines).0)
  {
    if Post(books, je, lines).1 == Posted {
      PostedIff(books, je, lines);
      PostRecords(books, je, lines);
      hide Post, TotalOf, Fits, Round;
      var after, n := Post(books, je, lines).0, |books.rows|;
      forall i | 0 <= i < |after.rows| ensures after.rows[i].amount > 0 {
        if i < n {
          assert after.rows[i] == after.rows[..n][i];
        } else {
          assert after.rows[n + (i - n)].amount == Round(lines[i - n].amount);
          assert lines[i - n] in lines;
        }
      }
    }
  }

  /** However often a journal is posted again, an idempotency key is booked once. */
  lemma {:induction false} KeysBookedOnce(books: Books, requests: seq<Request>)
    requires OnceEach(books)
    ensures OnceEach(PostMany(books, requests))
    decreases |requests|
  {
    hide OnceEach, Post;
    if requests != [] {
      var r := requests[0];
      PostKeepsOnceEach(books, r.je, r.lines);
      KeysBookedOnce(if r.aborted then books else Post(books, r.je, r.lines).0, requests[1..]);
    }
  }

  /** The standard chart is numbered by class: assets from 1000, liabilities from 2000, equity
      from 3000, revenue from 4000, expenses from 5000. */
  lemma {:induction false} NumberedByClass(g: GLAccount)
    requires g in STANDARD_CHART
    ensures g.code != [] && (g.code[0] == '1' <==> g.accountClass == Asset) && (g.code[0] == '2' <==> g.accountClass == Liability)
    ensures g.code != [] && (g.code[0] == '3' <==> g.accountClass == Equity) && (g.code[0] == '4' <==> g.accountClass == Revenue)
    ensures g.code != [] && (g.code[0] == '5' <==> g.accountClass == Expense)
  {
    var i :| 0 <= i < |STANDARD_CHART| && STANDARD_CHART[i] == g;
  }

  function Total(books: Books, accountClass: Class): int { ClassTotal(books.chart, books.rows, accountClass) }

  /** Assets plus expenses equal liabilities plus equity plus revenue. */
  predicate IdentityHolds(books: Books) {
    Total(books, Asset) + Total(books, Expense) == Total(books, Liability) + Total(books, Equity) + Total(books, Revenue)
  }

  /** The check the trial balance makes. */
  predicate TrialBalances(books: Books) {
    Total(books, Asset) == Total(books, Liability) + Total(books, Equity)
  }

  /** On a conventional chart the identity holds exactly when stored debits equal stored
      credits, and then the trial balance passes exactly when revenue equals expense. */
  lemma {:induction false} IdentityIffBalanced(books: Books)
    requires Filed(books)
    ensures IdentityHolds(books) <==> NetDebits(books.rows) == 0
    ensures IdentityHolds(books) ==> (TrialBalances(books) <==> Total(books, Revenue) == Total(books, Expense))
  {
    EquationIsNetDebits(books.chart, books.rows);
    hide ClassTotal, NetDebits;
  }

  function OpeningBooks(): Books { Books(Seeded([], STANDARD_CHART, None), [], [], []) }

  /** The accounting identity: on the seeded chart, after any sequence of posts of amounts
      with at most four decimals, successful or aborted, the identity holds; so the trial
      balance passes exactly when revenue equals expense. */
  lemma {:induction false} AccountingIdentity(requests: seq<Request>)
    requires forall i | 0 <= i < |requests| :: Whole(requests[i].lines)
    ensures var books := PostMany(OpeningBooks(), requests);
            IdentityHolds(books) && (TrialBalances(books) <==> Total(books, Revenue) == Total(books, Expense))
  {
    hide PostMany, Total, Seeded, NetDebits;
    SeedingKeepsConventional([], STANDARD_CHART, None);
    assert NetDebits([]) == 0 by { NetOfNothing(); }
    PostManyKeeps(OpeningBooks(), requests);
    hide OpeningBooks;
    IdentityIffBalanced(PostMany(OpeningBooks(), requests));
  }

  lemma {:induction false} NetOfNothing()
    ensures NetDebits([]) == 0
  {
  }

  /** For amounts of any scale a post keeps the identity exactly when its debits and its
      credits gain the same total from rounding. */
  lemma {:induction false} IdentityKeptIff(books: Books, je: Journal, lines: seq<Line>)
    requires Filed(books) && IdentityHolds(books) && Post(books, je, lines).1 == Posted
    ensures IdentityHolds(Post(books, je, lines).0) <==> Residue(lines) == 0.0
  {
    PostEffect(books, je, lines);
    hide Post, Residue, NetDebits, Filed, IdentityHolds;
    IdentityIffBalanced(books);
    IdentityIffBalanced(Post(books, je, lines).0);
  }

  // ---------- Posts that fail the checks ----------

  /** Seeding accounts that are all new adds them all. */
  lemma {:induction false} SeedingAdds(chart: seq<GLAccount>, wanted: seq<GLAccount>)
    requires DistinctCodes(chart + wanted)
    ensures Seeded(chart, wanted, None) == chart + wanted
    decreases |wanted|
  {
    if wanted == [] {
      assert chart + wanted == chart;
    } else {
      var all := chart + wanted;
      assert !HasCode(chart, wanted[0].code) by {
        forall i | 0 <= i < |chart| ensures chart[i].code != wanted[0].code {
          assert all[i] == chart[i] && all[|chart|] == wanted[0];
        }
      }
      assert (chart + [wanted[0]]) + wanted[1..] == all;
      SeedingAdds(chart + [wanted[0]], wanted[1..]);
    }
  }

  lemma {:induction false} StandardCodes()
    ensures DistinctCodes(STANDARD_CHART)
  {
  }

  lemma {:induction false} OpeningChart()
    ensures OpeningBooks() == Books(STANDARD_CHART, [], [], [])
    ensures Filed(OpeningBooks()) && IdentityHolds(OpeningBooks())
  {
    hide Seeded, DistinctCodes, IdentityHolds, NetDebits, Conventional;
    StandardCodes();
    assert [] + STANDARD_CHART == STANDARD_CHART;
    SeedingAdds([], STANDARD_CHART);
    NothingFiled();
    NetOfNothing();
    IdentityIffBalanced(OpeningBooks());
  }

  lemma {:induction false} NothingFiled()
    ensures Filed(OpeningBooks())
  {
    hide Seeded;
    SeedingKeepsConventional([], STANDARD_CHART, None);
  }

  /** One more row changes the total of its own account's class and of no other. */
  lemma {:induction false} ClassTotalOfRow(chart: seq<GLAccount>, rows: seq<Row>, r: Row, k: nat, accountClass: Class)
    requires DistinctCodes(chart) && k < |chart| && chart[k].code == r.account
    ensures ClassTotal(chart, rows + [r], accountClass)
         == ClassTotal(chart, rows, accountClass)
            + (if chart[k].accountClass != accountClass then 0 else if r.side == chart[k].normal then r.amount else -r.amount)
  {
    var init, last := chart[..|chart| - 1], chart[|chart| - 1];
    assert (rows + [r])[..|rows|] == rows;
    if k < |init| {
      assert init[k] == chart[k];
      ClassTotalOfRow(init, rows, r, k, accountClass);
    } else {
      ClassTotalOfOthers(init, rows, r, accountClass);
    }
  }

  lemma {:induction false} ClassTotalOfOthers(chart: seq<GLAccount>, rows: seq<Row>, r: Row, accountClass: Class)
    requires forall i | 0 <= i < |chart| :: chart[i].code != r.account
    ensures ClassTotal(chart, rows + [r], accountClass) == ClassTotal(chart, rows, accountClass)
  {
    assert (rows + [r])[..|rows|] == rows;
    if chart != [] { ClassTotalOfOthers(chart[..|chart| - 1], rows, r, accountClass); }
  }

  /** Two debits of 0.00015 and a credit of 0.0003. */
  const FINE_LINES := [Line("1000", DEBIT, 1.5), Line("1000", DEBIT, 1.5), Line("2000", CREDIT, 3.0)]

  lemma {:induction false} TotalOfMore(lines: seq<Line>, line: Line, side: string)
    ensures TotalOf(lines + [line], side) == TotalOf(lines, side) + (if line.side == side then line.amount else 0.0)
  {
    assert (lines + [line])[..|lines|] == lines;
  }

  lemma {:induction false} ResidueOfMore(lines: seq<Line>, line: Line)
    ensures var gap := Round(line.amount) as real - line.amount;
            Residue(lines + [line]) == Residue(lines) + (if line.side == DEBIT then gap else -gap)
  {
    assert (lines + [line])[..|lines|] == lines;
  }

  lemma {:induction false} HalvesRoundUp()
    ensures Round(1.5) == 2 && Round(3.0) == 3
  {
  }

  lemma {:induction false} FineTotal(side: string)
    ensures TotalOf(FINE_LINES, side) == if side == DEBIT || side == CREDIT then 3.0 else 0.0
  {
    var half, whole := FINE_LINES[0], FINE_LINES[2];
    assert FINE_LINES == (([] + [half]) + [half]) + [whole];
    TotalOfMore([], half, side);
    TotalOfMore([] + [half], half, side);
    TotalOfMore(([] + [half]) + [half], whole, side);
  }

  lemma {:induction false} FineResidue()
    ensures Residue(FINE_LINES) == 1.0
  {
    hide Round;
    HalvesRoundUp();
    var half, whole := FINE_LINES[0], FINE_LINES[2];
    assert FINE_LINES == (([] + [half]) + [half]) + [whole];
    ResidueOfMore([], half);
    ResidueOfMore([] + [half], half);
    ResidueOfMore(([] + [half]) + [half], whole);
  }

  /** Those lines pass the balance check, are posted, and break the accounting identity. */
  lemma {:induction false} FineAmountsCanUnbalance(je: Journal)
    ensures var (after, outcome) := Post(OpeningBooks(), je, FINE_LINES);
            outcome == Posted && !IdentityHolds(after)
  {
    hide TotalOf, Residue, OpeningBooks, IdentityHolds, Round;
    OpeningChart();
    FineTotal(DEBIT);
    FineTotal(CREDIT);
    FineResidue();
    HalvesRoundUp();
    forall line | line in FINE_LINES ensures Storable(OpeningBooks().chart, line) {
      assert STANDARD_CHART[0] in STANDARD_CHART && STANDARD_CHART[2] in STANDARD_CHART;
    }
    hide Storable;
    assert Post(OpeningBooks(), je, FINE_LINES).1 == Posted;
    hide Post;
    IdentityKeptIff(OpeningBooks(), je, FINE_LINES);
  }

  /** Interest income of 0.0010 received in cash. */
  const INCOME_LINES := [Line("1000", DEBIT, 10.0), Line("4000", CREDIT, 10.0)]

  lemma {:induction false} IncomeRows(je: Journal)
    ensures TotalOf(INCOME_LINES, DEBIT) == TotalOf(INCOME_LINES, CREDIT) && Round(10.0) == 10
    ensures StoredLines(je.id, INCOME_LINES) == [Row(je.id, "1000", Debit, 10)] + [Row(je.id, "4000", Credit, 10)]
  {
    var lines := INCOME_LINES;
    assert lines[..1] == [lines[0]] && [lines[0]][..0] == [];
    assert TotalOf([lines[0]], DEBIT) == 10.0 && TotalOf([lines[0]], CREDIT) == 0.0;
    assert StoredLines(je.id, [lines[0]]) == [Row(je.id, "1000", Debit, 10)];
  }

  lemma {:induction false} NoRowsNoTotal(chart: seq<GLAccount>, accountClass: Class)
    ensures ClassTotal(chart, [], accountClass) == 0
  {
    if chart != [] { NoRowsNoTotal(chart[..|chart| - 1], accountClass); }
  }

  lemma {:induction false} IncomePosted(je: Journal)
    ensures var (after, outcome) := Post(OpeningBooks(), je, INCOME_LINES);
            && outcome == Posted && after.chart == STANDARD_CHART
            && after.rows == [Row(je.id, "1000", Debit, 10)] + [Row(je.id, "4000", Credit, 10)]
  {
    hide TotalOf, OpeningBooks, StoredLines, Round, Filed, IdentityHolds;
    OpeningChart();
    IncomeRows(je);
    forall line | line in INCOME_LINES ensures Storable(STANDARD_CHART, line) {
      assert STANDARD_CHART[0] in STANDARD_CHART && STANDARD_CHART[5] in STANDARD_CHART;
    }
  }

  /** What the income leaves in each class. */
  lemma {:induction false} IncomeTotals(je: Journal, c: Class)
    ensures ClassTotal(STANDARD_CHART, [Row(je.id, "1000", Debit, 10)] + [Row(je.id, "4000", Credit, 10)], c)
         == if c == Asset || c == Revenue then 10 else 0
  {
    hide ClassTotal, DistinctCodes;
    StandardCodes();
    NoRowsNoTotal(STANDARD_CHART, c);
    var first := Row(je.id, "1000", Debit, 10);
    assert [] + [first] == [first];
    ClassTotalOfRow(STANDARD_CHART, [], first, 0, c);
    ClassTotalOfRow(STANDARD_CHART, [first], Row(je.id, "4000", Credit, 10), 5, c);
  }

  /** A balanced post of income is accepted, and the trial balance check then fails although
      the accounting identity holds. */
  lemma {:induction false} IncomeFailsTrialBalance(je: Journal)
    ensures var (after, outcome) := Post(OpeningBooks(), je, INCOME_LINES);
            outcome == Posted && IdentityHolds(after) && !TrialBalances(after)
  {
    hide Post, ClassTotal, OpeningBooks;
    IncomePosted(je);
    forall c: Class { IncomeTotals(je, c); }
  }
}
