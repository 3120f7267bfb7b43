/**
 * The member ledger sheet for one member and one year: the balances carried
 * forward from earlier years, and one row per transaction of the year with
 * the running balances after it, in the order the log holds them.
 */
module MemberLedger {
  import opened Types
  import opened Balance
  import opened Text
  import Seqs
  import Db

  /** One printed row of the year. */
  datatype Row = Row(date: string, kind: TxType, amount: int, savingsBalance: int, loanBalance: int, remarks: string)

  /** The opening balances and the rows of the year. */
  datatype YearLedger = YearLedger(openingSavings: int, openingLoan: int, entries: seq<Row>)

  /** `date.split('-')[0]`: the year field of a date. */
  function YearOf(date: string): string {
    DashField(date, 0).value
  }

  /** The filter condition of the carry-forward: a year string less than the target. */
  function BeforeYear(year: string): Transaction -> bool {
    (t: Transaction) => LexLess(YearOf(t.date), year)
  }

  /** The filter condition of the year's rows: the year string equals the target. */
  function InYear(year: string): Transaction -> bool {
    (t: Transaction) => YearOf(t.date) == year
  }

  function Earlier(txs: seq<Transaction>, year: string): seq<Transaction> {
    Seqs.Filter(txs, BeforeYear(year))
  }

  function YearEntries(txs: seq<Transaction>, year: string): seq<Transaction> {
    Seqs.Filter(txs, InYear(year))
  }

  function MakeRow(t: Transaction, b: Balances): Row {
    Row(t.date, t.kind, t.amount, b.savings, b.loan, t.remarks.GetOr(""))
  }

  /** The rows of `entries`, one per entry, each carrying the balances after it, starting from `b`. */
  function Rows(b: Balances, entries: seq<Transaction>): (r: seq<Row>)
    ensures |r| == |entries|
  {
    if entries == [] then []
    else Rows(b, entries[..|entries| - 1]) + [MakeRow(entries[|entries| - 1], Fold(b, entries))]
  }

  /**
   * The ledger sheet of member `memberId` for `year`: nothing when no member
   * is chosen, and an empty sheet opening at zero for a member with no
   * transaction in the log.
   */
  function Rollup(all: seq<Transaction>, memberId: string, year: string): (r: YearLedger)
    ensures memberId == "" ==> r == YearLedger(0, 0, [])
    ensures (forall t :: t in all ==> t.memberId != memberId) ==> r == YearLedger(0, 0, [])
  {
    if memberId == "" then YearLedger(0, 0, [])
    else
      var mine := Db.MemberTxs(all, memberId);
      assert (forall t :: t in all ==> t.memberId != memberId) ==> mine == [] by {
        if mine != [] {
          assert mine[0] in mine;
        }
      }
      var opening := Fold(Zero, Earlier(mine, year));
      YearLedger(opening.savings, opening.loan, Rows(opening, YearEntries(mine, year)))
  }

  /** The four `if`s both passes run on a transaction: the balance rule, applied to a pair of counters. */
  method Apply(savings: int, loan: int, t: Transaction) returns (savings': int, loan': int)
    ensures Balances(savings', loan') == Step(Balances(savings, loan), t)
  {
    savings', loan' := savings, loan;
    if t.kind == Savings { savings' := savings' + t.amount; }
    if t.kind == SavingsWithdrawal { savings' := savings' - t.amount; }
    if t.kind == LoanDistribution { loan' := loan' + t.amount; }
    if t.kind == LoanCollection { loan' := loan' - t.amount; }
  }

  /** The carry-forward pass: the earlier years' balances, accumulated transaction by transaction. */
  method CarryForward(memberTxs: seq<Transaction>, year: string) returns (preSavings: int, preLoan: int)
    ensures Balances(preSavings, preLoan) == Fold(Zero, Earlier(memberTxs, year))
  {
    preSavings, preLoan := 0, 0;
    var i := 0;
    while i < |memberTxs|
      invariant 0 <= i <= |memberTxs|
      invariant Balances(preSavings, preLoan) == Fold(Zero, Earlier(memberTxs[..i], year))
    {
      var t := memberTxs[i];
      if LexLess(YearOf(t.date), year) {
        preSavings, preLoan := Apply(preSavings, preLoan, t);
      }
      CarryStep(memberTxs, i, year);
      i := i + 1;
    }
    assert memberTxs[..i] == memberTxs;
  }

  /** One more transaction moves the carried balances by the rule exactly when it is dated in an earlier year. */
  lemma CarryStep(txs: seq<Transaction>, i: nat, year: string)
    requires i < |txs|
    ensures var before := Fold(Zero, Earlier(txs[..i], year));
            Fold(Zero, Earlier(txs[..i + 1], year))
            == if LexLess(YearOf(txs[i].date), year) then Step(before, txs[i]) else before
  {
    assert txs[..i + 1] == txs[..i] + [txs[i]];
    Seqs.FilterAppendOne(txs[..i], txs[i], BeforeYear(year));
    FoldAppendOne(Zero, Earlier(txs[..i], year), txs[i]);
  }

  /** The row pass: each row carries the balances after it, starting from the opening ones. */
  method RunningRows(opening: Balances, entries: seq<Transaction>) returns (processed: seq<Row>)
    ensures processed == Rows(opening, entries)
  {
    var runningSavings, runningLoan := opening.savings, opening.loan;
    processed := [];
    var k := 0;
    while k < |entries|
      invariant 0 <= k <= |entries|
      invariant Balances(runningSavings, runningLoan) == Fold(opening, entries[..k])
      invariant processed == Rows(opening, entries[..k])
    {
      var t := entries[k];
      runningSavings, runningLoan := Apply(runningSavings, runningLoan, t);
      var row := Row(t.date, t.kind, t.amount, runningSavings, runningLoan, t.remarks.GetOr(""));
      processed := processed + [row];
      assert entries[..k + 1] == entries[..k] + [t];
      assert entries[..k + 1][..k] == entries[..k];
      FoldAppendOne(opening, entries[..k], t);
      k := k + 1;
    }
    assert entries[..k] == entries;
  }

  /**
   * The sheet as the screen computes it: nothing without a chosen member;
   * otherwise the carry-forward pass over the member's transactions, then
   * the row pass over the year's transactions.
   */
  method ComputeYearLedger(all: seq<Transaction>, memberId: string, year: string) returns (r: YearLedger)
    ensures r == Rollup(all, memberId, year)
  {
    if memberId == "" {
      return YearLedger(0, 0, []);
    }
    var memberTxs := Db.MemberTxs(all, memberId);
    var preSavings, preLoan := CarryForward(memberTxs, year);
    var entries := YearEntries(memberTxs, year);
    var processed := RunningRows(Balances(preSavings, preLoan), entries);
    r := YearLedger(preSavings, preLoan, processed);
  }

  /**
   * Row `k` is the `k`-th entry with the balances after the entries up to
   * and including it.
   */
  lemma {:induction false} RowsAt(b: Balances, entries: seq<Transaction>, k: nat)
    requires k < |entries|
    ensures |Rows(b, entries)| == |entries|
    ensures var row := Rows(b, entries)[k];
            row.date == entries[k].date && row.kind == entries[k].kind && row.amount == entries[k].amount
            && Balances(row.savingsBalance, row.loanBalance) == Fold(b, entries[..k + 1])
    decreases |entries|
  {
    var front := entries[..|entries| - 1];
    if k < |entries| - 1 {
      RowsAt(b, front, k);
      Seqs.TakeTake(entries, |entries| - 1, k + 1);
    } else {
      Seqs.TakeAll(entries);
    }
  }

  /**
   * A row's balances are the previous row's, or the opening ones for the
   * first row, with the rule applied to that row's entry alone.
   */
  lemma RowsStep(b: Balances, entries: seq<Transaction>, k: nat)
    requires k < |entries|
    ensures |Rows(b, entries)| == |entries|
    ensures var prev := if k == 0 then b else
              Balances(Rows(b, entries)[k - 1].savingsBalance, Rows(b, entries)[k - 1].loanBalance);
            Balances(Rows(b, entries)[k].savingsBalance, Rows(b, entries)[k].loanBalance) == Step(prev, entries[k])
  {
    RowsAt(b, entries, k);
    if k > 0 {
      RowsAt(b, entries, k - 1);
    }
    Seqs.TakeOneMore(entries, k);
    FoldAppendOne(b, entries[..k], entries[k]);
  }

  /**
   * The sheet of a chosen member: the opening balances are the rule folded
   * from zero over the member's transactions of earlier years, and there is
   * one row per transaction of the member dated in the year, in log order.
   */
  lemma RollupShape(all: seq<Transaction>, memberId: string, year: string)
    requires memberId != ""
    ensures var r := Rollup(all, memberId, year);
            var mine := Db.MemberTxs(all, memberId);
            && Balances(r.openingSavings, r.openingLoan) == Fold(Zero, Earlier(mine, year))
            && |r.entries| == |YearEntries(mine, year)|
            && (forall t :: t in YearEntries(mine, year) <==> t in all && t.memberId == memberId && YearOf(t.date) == year)
            && (forall t :: t in Earlier(mine, year) <==> t in all && t.memberId == memberId && LexLess(YearOf(t.date), year))
  {
    var mine := Db.MemberTxs(all, memberId);
    var opening := Fold(Zero, Earlier(mine, year));
  }

  /** The opening balances, in the form of deposits minus withdrawals and distributions minus collections. */
  lemma OpeningIsNetSums(all: seq<Transaction>, memberId: string, year: string)
    requires memberId != ""
    ensures var r := Rollup(all, memberId, year);
            var before := Earlier(Db.MemberTxs(all, memberId), year);
            r.openingSavings == SumKind(before, Savings) - SumKind(before, SavingsWithdrawal)
            && r.openingLoan == SumKind(before, LoanDistribution) - SumKind(before, LoanCollection)
  {
    FoldIsNetSums(Zero, Earlier(Db.MemberTxs(all, memberId), year));
  }

  /** The sheet depends on the member's own transactions only. */
  lemma OnlyOwnTransactions(all: seq<Transaction>, memberId: string, year: string)
    ensures Rollup(all, memberId, year) == Rollup(Db.MemberTxs(all, memberId), memberId, year)
  {
    var mine := Db.MemberTxs(all, memberId);
    Seqs.FilterAll(mine, Db.HasMemberId(memberId));
  }

  /** A transaction dated in a later year changes neither the opening balances nor the rows. */
  lemma LaterYearIgnored(a: seq<Transaction>, t: Transaction, c: seq<Transaction>, memberId: string, year: string)
    requires LexLess(year, YearOf(t.date))
    ensures Rollup(a + [t] + c, memberId, year) == Rollup(a + c, memberId, year)
  {
    if memberId != "" {
      LexLessTrichotomy(year, YearOf(t.date));
      var ma, mt, mc := Db.MemberTxs(a, memberId), Db.MemberTxs([t], memberId), Db.MemberTxs(c, memberId);
      assert Db.MemberTxs(a + [t] + c, memberId) == ma + mt + mc by {
        Db.MemberTxsAppend(a + [t], c, memberId);
        Db.MemberTxsAppend(a, [t], memberId);
      }
      assert Db.MemberTxs(a + c, memberId) == ma + mc by {
        Db.MemberTxsAppend(a, c, memberId);
      }
      Seqs.FilterSkip(ma, mt, mc, BeforeYear(year));
      Seqs.FilterSkip(ma, mt, mc, InYear(year));
    }
  }

  /**
   * The opening balances do not depend on the order in which the log holds
   * the transactions: reordering the log leaves them unchanged.
   */
  lemma OpeningOrderIndependent(p: seq<Transaction>, q: seq<Transaction>, memberId: string, year: string)
    requires multiset(p) == multiset(q)
    ensures Rollup(p, memberId, year).openingSavings == Rollup(q, memberId, year).openingSavings
    ensures Rollup(p, memberId, year).openingLoan == Rollup(q, memberId, year).openingLoan
  {
    if memberId != "" {
      Seqs.FilterPermutation(p, q, Db.HasMemberId(memberId));
      var mp, mq := Db.MemberTxs(p, memberId), Db.MemberTxs(q, memberId);
      Seqs.FilterPermutation(mp, mq, BeforeYear(year));
      FoldOrderIndependent(Zero, Earlier(mp, year), Earlier(mq, year));
    }
  }

  function ExampleT1(): Transaction {
    Transaction("T1", "101", "করিম", "2024-05-01", 500, Savings, None)
  }

  function ExampleT2(): Transaction {
    Transaction("T2", "101", "করিম", "2025-02-01", 300, Savings, None)
  }

  /** The year field of a `YYYY-MM-DD` date is its first four characters. */
  lemma YearOfIso(d: string)
    requires |d| == 10 && d[4] == '-' && d[7] == '-'
    requires NoDash(d[..4]) && NoDash(d[5..7]) && NoDash(d[8..])
    ensures YearOf(d) == d[..4]
  {
    IsoDateFields(d);
  }

  lemma ExampleYearOf(d: string, y: string)
    requires (d == "2024-05-01" && y == "2024") || (d == "2025-02-01" && y == "2025")
    ensures YearOf(d) == y
  {
    assert d[..4] == y && NoDash(d[..4]);
    assert NoDash(d[5..7]) && NoDash(d[8..]);
    YearOfIso(d);
  }

  lemma ExampleYearOrder()
    ensures LexLess("2024", "2025") && !LexLess("2025", "2025")
  {
    assert "2024"[1..] == "024" && "2025"[1..] == "025";
    assert "024"[1..] == "24" && "025"[1..] == "25";
    assert "24"[1..] == "4" && "25"[1..] == "5";
  }

  lemma ExampleYears()
    ensures BeforeYear("2025")(ExampleT1()) && !BeforeYear("2025")(ExampleT2())
    ensures !InYear("2025")(ExampleT1()) && InYear("2025")(ExampleT2())
  {
    ExampleYearOf("2024-05-01", "2024");
    ExampleYearOf("2025-02-01", "2025");
    ExampleYearOrder();
  }

  function ExampleLog(): seq<Transaction> {
    [ExampleT1(), ExampleT2()]
  }

  lemma ExampleFilters()
    ensures Db.MemberTxs(ExampleLog(), "101") == ExampleLog()
    ensures Earlier(ExampleLog(), "2025") == [ExampleT1()]
    ensures YearEntries(ExampleLog(), "2025") == [ExampleT2()]
  {
    Seqs.FilterAll(ExampleLog(), Db.HasMemberId("101"));
    ExampleEarlier();
    ExampleInYear();
  }

  lemma ExampleEarlier()
    ensures Earlier(ExampleLog(), "2025") == [ExampleT1()]
  {
    ExampleYears();
    var t1 := ExampleT1();
    assert ExampleLog()[..1] == [t1];
    assert [t1][..0] == [];
  }

  lemma ExampleInYear()
    ensures YearEntries(ExampleLog(), "2025") == [ExampleT2()]
  {
    ExampleYears();
    var t1, t2 := ExampleT1(), ExampleT2();
    assert ExampleLog()[..1] == [t1];
    assert [t1][..0] == [];
    assert [] + [t2] == [t2];
  }

  /**
   * A savings deposit of 500 in 2024 and one of 300 in 2025, viewed for
   * 2025: the opening savings are 500 and the single row shows 800.
   */
  lemma TwoYearExample()
    ensures var r := Rollup(ExampleLog(), "101", "2025");
            r.openingSavings == 500 && r.openingLoan == 0
            && |r.entries| == 1 && r.entries[0].savingsBalance == 800 && r.entries[0].loanBalance == 0
  {
    ExampleFilters();
    ExampleOpening();
    ExampleRows();
    assert Rollup(ExampleLog(), "101", "2025") == YearLedger(500, 0, [MakeRow(ExampleT2(), Balances(800, 0))]);
  }

  lemma ExampleOpening()
    ensures Fold(Zero, [ExampleT1()]) == Balances(500, 0)
  {
    assert [ExampleT1()][..0] == [];
  }

  lemma ExampleRows()
    ensures Rows(Balances(500, 0), [ExampleT2()]) == [MakeRow(ExampleT2(), Balances(800, 0))]
  {
    var t2 := ExampleT2();
    assert [t2][..0] == [];
    assert Fold(Balances(500, 0), [t2]) == Balances(800, 0) by {
      assert Fold(Balances(500, 0), [t2][..0]) == Balances(500, 0);
    }
  }
}
