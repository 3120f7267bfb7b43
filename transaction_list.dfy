/**
 * The transaction list screen: the savings view (deposits and withdrawals)
 * or the loan view (distributions and collections), narrowed by month and
 * by a search on the member, with the total of the rows shown.
 */
module TransactionList {
  import opened Types
  import opened Balance
  import opened Text
  import Seqs

  /** Which of the two lists the screen shows. */
  datatype Group = SavingsGroup | LoanGroup

  /** The two types each list shows. */
  predicate InGroup(g: Group, k: TxType) {
    match g
    case SavingsGroup => k == Savings || k == SavingsWithdrawal
    case LoanGroup => k == LoanDistribution || k == LoanCollection
  }

  /**
   * The month choice: `"all"`, or a month code that the date's second
   * dash-separated field must equal.
   */
  predicate MatchesMonth(selectedMonth: string, t: Transaction) {
    selectedMonth == "all" || DashField(t.date, 1) == Some(selectedMonth)
  }

  /** The search: the member's name or id includes the term. */
  predicate MatchesSearch(term: string, t: Transaction) {
    Contains(t.memberName, term) || Contains(t.memberId, term)
  }

  /** The row condition of the screen. */
  function Shown(g: Group, selectedMonth: string, term: string): Transaction -> bool {
    (t: Transaction) => InGroup(g, t.kind) && MatchesMonth(selectedMonth, t) && MatchesSearch(term, t)
  }

  /** The rows shown: the matching entries of the log, in log order. */
  function FilteredData(txs: seq<Transaction>, g: Group, selectedMonth: string, term: string): (r: seq<Transaction>)
    ensures forall t :: t in r <==>
              t in txs && InGroup(g, t.kind) && MatchesMonth(selectedMonth, t) && MatchesSearch(term, t)
    ensures Seqs.IsSublist(r, txs)
  {
    Seqs.FilterSublist(txs, Shown(g, selectedMonth, term));
    Seqs.Filter(txs, Shown(g, selectedMonth, term))
  }

  /** All months and an empty search show every entry of the list's two types. */
  lemma AllMonthsNoSearch(txs: seq<Transaction>, g: Group)
    ensures FilteredData(txs, g, "all", "") == Seqs.Filter(txs, (t: Transaction) => InGroup(g, t.kind))
  {
    if txs != [] {
      AllMonthsNoSearch(txs[..|txs| - 1], g);
      ContainsEmpty(txs[|txs| - 1].memberName);
    }
  }

  /**
   * The total under the list: the rows' amounts summed as they are, so never
   * negative when no amount is, and no less than any one row's amount then.
   */
  function TotalSummaryAmount(rows: seq<Transaction>): (r: int)
    ensures (forall t :: t in rows ==> t.amount >= 0) ==> r >= 0
    ensures (forall t :: t in rows ==> t.amount >= 0) ==> forall t :: t in rows ==> t.amount <= r
  {
    assert (forall t :: t in rows ==> t.amount >= 0) ==> forall t :: t in rows ==> t.amount <= Seqs.Sum(rows, Amount) by {
      if forall t :: t in rows ==> t.amount >= 0 {
        Seqs.SumAtLeastTerm(rows, Amount);
      }
    }
    Seqs.Sum(rows, Amount)
  }

  /**
   * The total adds the two types of the list together instead of netting
   * them: in the savings view withdrawals are added to deposits, in the loan
   * view collections to distributions.
   */
  lemma {:induction false} TotalIsGross(rows: seq<Transaction>, g: Group)
    requires forall t :: t in rows ==> InGroup(g, t.kind)
    ensures g == SavingsGroup ==> TotalSummaryAmount(rows) == SumKind(rows, Savings) + SumKind(rows, SavingsWithdrawal)
    ensures g == LoanGroup ==> TotalSummaryAmount(rows) == SumKind(rows, LoanDistribution) + SumKind(rows, LoanCollection)
  {
    if rows != [] {
      assert forall t :: t in rows[..|rows| - 1] ==> t in rows;
      TotalIsGross(rows[..|rows| - 1], g);
      assert rows[|rows| - 1] in rows;
    }
  }

  /** The total of the rows shown, in per-type form. */
  lemma FilteredTotal(txs: seq<Transaction>, g: Group, selectedMonth: string, term: string)
    ensures var rows := FilteredData(txs, g, selectedMonth, term);
            (g == SavingsGroup ==> TotalSummaryAmount(rows) == SumKind(rows, Savings) + SumKind(rows, SavingsWithdrawal))
            && (g == LoanGroup ==> TotalSummaryAmount(rows) == SumKind(rows, LoanDistribution) + SumKind(rows, LoanCollection))
  {
    TotalIsGross(FilteredData(txs, g, selectedMonth, term), g);
  }

  /** A withdrawal of 200 after a deposit of 500 shows a savings total of 700, not 300. */
  lemma GrossExample(a: Transaction, b: Transaction)
    requires a.kind == Savings && a.amount == 500 && b.kind == SavingsWithdrawal && b.amount == 200
    ensures TotalSummaryAmount([a, b]) == 700
  {
    assert [a, b][..1] == [a] && [a][..0] == [];
    assert Seqs.Sum([a], Amount) == 500;
    assert Seqs.Sum([a, b], Amount) == Seqs.Sum([a], Amount) + 200;
  }
}
