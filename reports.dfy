/**
 * The reports screen: the society-wide summary (savings, loans, expenses,
 * net bank deposits, cash in hand, an approximate profit), the twelve
 * month buckets of the chart, and the pie chart's cash slice.
 */
module Reports {
  import opened Types
  import opened Balance
  import opened Text
  import Seqs
  import Db

  /** `txs.filter(t => t.type === k).reduce((sum, t) => sum + t.amount, 0)`. */
  function TypeTotal(txs: seq<Transaction>, k: TxType): int {
    Seqs.Sum(Seqs.Filter(txs, OfKind(k)), Amount)
  }

  lemma TypeTotalAppendOne(txs: seq<Transaction>, t: Transaction, k: TxType)
    ensures TypeTotal(txs + [t], k) == TypeTotal(txs, k) + KindAmount(t, k)
  {
    Seqs.FilterAppendOne(txs, t, OfKind(k));
    Seqs.SumAppend(Seqs.Filter(txs, OfKind(k)), if t.kind == k then [t] else [], Amount);
    assert [t][..0] == [];
  }

  /** The filter-and-sum of one type is the per-type total the balance rule is stated with. */
  lemma {:induction false} TypeTotalIsSumKind(txs: seq<Transaction>, k: TxType)
    ensures TypeTotal(txs, k) == SumKind(txs, k)
  {
    if txs != [] {
      var front, last := txs[..|txs| - 1], txs[|txs| - 1];
      TypeTotalIsSumKind(front, k);
      assert txs == front + [last];
      TypeTotalAppendOne(front, last, k);
    }
  }

  /** The approximate profit on one loan collection: 9% of it. */
  function ProfitShare(t: Transaction): real {
    t.amount as real * 0.09
  }

  function TotalProfit(txs: seq<Transaction>): real {
    Seqs.RealSum(Seqs.Filter(txs, OfKind(LoanCollection)), ProfitShare)
  }

  /** The approximate profit is 9% of all loan collections. */
  lemma {:induction false} TotalProfitIsNinePercent(txs: seq<Transaction>)
    ensures TotalProfit(txs) == 0.09 * SumKind(txs, LoanCollection) as real
  {
    if txs != [] {
      var front, last := txs[..|txs| - 1], txs[|txs| - 1];
      TotalProfitIsNinePercent(front);
      assert txs == front + [last];
      Seqs.FilterAppendOne(front, last, OfKind(LoanCollection));
      Seqs.RealSumAppend(Seqs.Filter(front, OfKind(LoanCollection)),
                         if last.kind == LoanCollection then [last] else [], ProfitShare);
      assert [last][..0] == [];
      SumKindAppendOne(front, last, LoanCollection);
    }
  }

  datatype Summary = Summary(totalSavings: int, totalProfit: real, currentLoan: int,
                             cashInHand: int, bankDeposit: int)

  /**
   * The summary figures; `bankDeposit` is net of bank withdrawals. Savings
   * and loans are the members' cached balances summed, and every taka saved
   * is accounted for: in hand, in the bank, out on loan or spent.
   */
  function SummaryMetrics(ms: seq<Member>, txs: seq<Transaction>): (r: Summary)
    ensures r.totalSavings == Seqs.Sum(ms, SavingsOf) && r.currentLoan == Seqs.Sum(ms, LoanOf)
    ensures r.totalSavings == r.cashInHand + r.bankDeposit + r.currentLoan + TypeTotal(txs, Expense)
  {
    var totalSavings := Seqs.Sum(ms, SavingsOf);
    var currentLoan := Seqs.Sum(ms, LoanOf);
    var totalExpenses := TypeTotal(txs, Expense);
    var bankDeposit := TypeTotal(txs, BankDeposit);
    var bankWithdrawal := TypeTotal(txs, BankWithdrawal);
    Summary(totalSavings, TotalProfit(txs), currentLoan,
            totalSavings - currentLoan - totalExpenses - (bankDeposit - bankWithdrawal),
            bankDeposit - bankWithdrawal)
  }

  /**
   * The summary in terms of the per-type totals of the log: the bank figure
   * is deposits minus withdrawals, and cash in hand is savings minus loans
   * minus expenses minus the net bank figure.
   */
  lemma SummaryInKindTotals(ms: seq<Member>, txs: seq<Transaction>)
    ensures var r := SummaryMetrics(ms, txs);
            r.bankDeposit == SumKind(txs, BankDeposit) - SumKind(txs, BankWithdrawal)
            && r.cashInHand == r.totalSavings - r.currentLoan - SumKind(txs, Expense) - r.bankDeposit
            && r.totalProfit == 0.09 * SumKind(txs, LoanCollection) as real
  {
    TypeTotalIsSumKind(txs, BankDeposit);
    TypeTotalIsSumKind(txs, BankWithdrawal);
    TypeTotalIsSumKind(txs, Expense);
    TotalProfitIsNinePercent(txs);
  }

  // ---------------------------------------------------------------------
  // How posting a transaction moves the figures

  /**
   * What a posted transaction does to cash in hand, by type: deposits and
   * loan collections of an existing member bring cash in, withdrawals and
   * loan distributions to one take it out; expenses and bank deposits take
   * cash out and bank withdrawals bring it in, with or without a member.
   */
  function CashEffect(ms: seq<Member>, t: Transaction): int {
    var found := Db.FindIndex(ms, t.memberId) != -1;
    match t.kind
    case Savings => if found then t.amount else 0
    case LoanCollection => if found then t.amount else 0
    case SavingsWithdrawal => if found then -t.amount else 0
    case LoanDistribution => if found then -t.amount else 0
    case Expense => -t.amount
    case BankDeposit => -t.amount
    case BankWithdrawal => t.amount
  }

  /** The change the balance rule makes to the first matching member's savings. */
  function SavingsDelta(t: Transaction): int {
    match t.kind
    case Savings => t.amount
    case SavingsWithdrawal => -t.amount
    case _ => 0
  }

  function LoanDelta(t: Transaction): int {
    match t.kind
    case LoanDistribution => t.amount
    case LoanCollection => -t.amount
    case _ => 0
  }

  /** Posting changes the society's total savings and total loans by the one member's change. */
  lemma PostTotals(ms: seq<Member>, t: Transaction)
    ensures var found := Db.FindIndex(ms, t.memberId) != -1;
            Seqs.Sum(Db.Post(ms, t), SavingsOf) == Seqs.Sum(ms, SavingsOf) + (if found then SavingsDelta(t) else 0)
            && Seqs.Sum(Db.Post(ms, t), LoanOf) == Seqs.Sum(ms, LoanOf) + (if found then LoanDelta(t) else 0)
  {
    var i := Db.FindIndex(ms, t.memberId);
    if i != -1 {
      var m' := Db.WithBalance(ms[i], Step(Db.BalanceOf(ms[i]), t));
      assert Db.Post(ms, t) == ms[i := m'];
      Seqs.SumUpdate(ms, i, m', SavingsOf);
      Seqs.SumUpdate(ms, i, m', LoanOf);
    }
  }

  /**
   * Posting a transaction through the store (the log grows by it and the
   * member list is updated by the balance rule) moves cash in hand by
   * exactly the cash effect of its type, and the bank figure by the bank
   * deposit or withdrawal amount.
   */
  lemma CashAfterPosting(ms: seq<Member>, txs: seq<Transaction>, t: Transaction)
    ensures var before := SummaryMetrics(ms, txs);
            var after := SummaryMetrics(Db.Post(ms, t), txs + [t]);
            after.cashInHand == before.cashInHand + CashEffect(ms, t)
            && after.bankDeposit == before.bankDeposit + KindAmount(t, BankDeposit) - KindAmount(t, BankWithdrawal)
  {
    var ms' := Db.Post(ms, t);
    var txs' := txs + [t];
    SummaryFields(ms, txs);
    SummaryFields(ms', txs');
    PostTotals(ms, t);
    TypeTotalAppendOne(txs, t, Expense);
    TypeTotalAppendOne(txs, t, BankDeposit);
    TypeTotalAppendOne(txs, t, BankWithdrawal);
    CashEffectByType(ms, t);
  }

  /** The cash effect is the member's net change plus the cash-only types' amounts. */
  lemma CashEffectByType(ms: seq<Member>, t: Transaction)
    ensures var found := Db.FindIndex(ms, t.memberId) != -1;
            CashEffect(ms, t)
            == (if found then SavingsDelta(t) - LoanDelta(t) else 0)
               - KindAmount(t, Expense) - KindAmount(t, BankDeposit) + KindAmount(t, BankWithdrawal)
  {
  }

  lemma SummaryFields(ms: seq<Member>, txs: seq<Transaction>)
    ensures var r := SummaryMetrics(ms, txs);
            r.cashInHand == Seqs.Sum(ms, SavingsOf) - Seqs.Sum(ms, LoanOf) - TypeTotal(txs, Expense)
                            - (TypeTotal(txs, BankDeposit) - TypeTotal(txs, BankWithdrawal))
            && r.bankDeposit == TypeTotal(txs, BankDeposit) - TypeTotal(txs, BankWithdrawal)
  {
  }

  // ---------------------------------------------------------------------
  // The chart

  /** The Bengali month names, January to December. */
  function MonthNames(): (r: seq<string>)
    ensures |r| == 12
  {
    ["জানুয়ারি", "ফেব্রুয়ারি", "মার্চ", "এপ্রিল", "মে", "জুন", "জুলাই", "আগস্ট", "সেপ্টেম্বর", "অক্টোবর", "নভেম্বর", "ডিসেম্বর"]
  }

  /** `t.date.split('-')[1] === code && t.type === k`. */
  function InMonthOfKind(code: string, k: TxType): Transaction -> bool {
    (t: Transaction) => DashField(t.date, 1) == Some(code) && t.kind == k
  }

  /**
   * One month's total of one type, over all years: never negative when no
   * amount is, and zero when the log holds no entry of that type.
   */
  function MonthTotal(txs: seq<Transaction>, code: string, k: TxType): (r: int)
    ensures (forall t :: t in txs ==> t.amount >= 0) ==> r >= 0
    ensures (forall t :: t in txs ==> t.kind != k) ==> r == 0
  {
    var picked := Seqs.Filter(txs, InMonthOfKind(code, k));
    assert (forall t :: t in txs ==> t.amount >= 0) ==> Seqs.Sum(picked, Amount) >= 0 by {
      if forall t :: t in txs ==> t.amount >= 0 {
        Seqs.SumNonNegative(picked, Amount);
      }
    }
    assert (forall t :: t in txs ==> t.kind != k) ==> picked == [] by {
      if picked != [] {
        assert picked[0] in picked;
      }
    }
    Seqs.Sum(picked, Amount)
  }

  datatype Bucket = Bucket(name: string, savings: int, loan: int)

  /** The twelve chart buckets: deposits and loan collections per calendar month, years pooled. */
  function ChartData(txs: seq<Transaction>): (r: seq<Bucket>)
    ensures |r| == 12
  {
    seq(12, i requires 0 <= i < 12 => MonthBucket(txs, i + 1))
  }

  /**
   * The bucket of month `m`: named for that month, and holding that month's
   * deposits and loan collections, neither negative when no amount is.
   */
  function MonthBucket(txs: seq<Transaction>, m: nat): (r: Bucket)
    requires 1 <= m <= 12
    ensures r.name == MonthNames()[m - 1]
    ensures (forall t :: t in txs ==> t.amount >= 0) ==> r.savings >= 0 && r.loan >= 0
    ensures (forall t :: t in txs ==> t.kind != Savings) ==> r.savings == 0
  {
    var code := MonthCode(m);
    Bucket(MonthNames()[m - 1], MonthTotal(txs, code, Savings), MonthTotal(txs, code, LoanCollection))
  }

  /** Bucket `i` is month `i + 1`: its name, its deposits and its loan collections, years pooled. */
  lemma ChartBuckets(txs: seq<Transaction>, i: nat)
    requires i < 12
    ensures ChartData(txs)[i].name == MonthNames()[i]
    ensures ChartData(txs)[i].savings == MonthTotal(txs, MonthCode(i + 1), Savings)
    ensures ChartData(txs)[i].loan == MonthTotal(txs, MonthCode(i + 1), LoanCollection)
  {
  }

  /** The month number of a transaction's date, 0 when its month field is not `01`..`12`. */
  function MonthOf(t: Transaction): (r: nat)
    ensures r <= 12
  {
    match DashField(t.date, 1)
    case Some(s) => if |s| == 2 && IsDigits(s) && 1 <= DigitsValue(s) <= 12 then DigitsValue(s) else 0
    case None => 0
  }

  /** A field is the code of month `m` exactly when the month number found is `m`. */
  lemma MonthOfExact(t: Transaction, m: nat)
    requires 1 <= m <= 12
    ensures DashField(t.date, 1) == Some(MonthCode(m)) <==> MonthOf(t) == m
  {
    if MonthOf(t) == m {
      TwoDigitsInjective(DashField(t.date, 1).value, MonthCode(m));
    }
  }

  /** Deposits whose month field is the code of one of the first `n` months. */
  function DatedSavings(n: nat): Transaction -> bool {
    (t: Transaction) => t.kind == Savings && 1 <= MonthOf(t) <= n
  }

  function BucketSavings(b: Bucket): int {
    b.savings
  }

  /** The deposits of the first `n` months, over all years. */
  function SavingsUpTo(txs: seq<Transaction>, n: nat): int
    requires n <= 12
  {
    if n == 0 then 0 else SavingsUpTo(txs, n - 1) + MonthTotal(txs, MonthCode(n), Savings)
  }

  /** The last transaction of a list adds its amount to its own month's total of its own type. */
  lemma MonthTotalLast(txs: seq<Transaction>, code: string, k: TxType)
    requires txs != []
    ensures var last := txs[|txs| - 1];
            MonthTotal(txs, code, k)
            == MonthTotal(txs[..|txs| - 1], code, k) + (if InMonthOfKind(code, k)(last) then last.amount else 0)
  {
    var last := txs[|txs| - 1];
    var tail := if InMonthOfKind(code, k)(last) then [last] else [];
    Seqs.SumAppend(Seqs.Filter(txs[..|txs| - 1], InMonthOfKind(code, k)), tail, Amount);
    assert [last][..0] == [];
  }

  /** A deposit lands in the bucket of its month and no other. */
  lemma {:induction false} SavingsUpToLast(txs: seq<Transaction>, n: nat)
    requires n <= 12 && txs != []
    ensures var last := txs[|txs| - 1];
            SavingsUpTo(txs, n)
            == SavingsUpTo(txs[..|txs| - 1], n) + (if last.kind == Savings && 1 <= MonthOf(last) <= n then last.amount else 0)
  {
    if n > 0 {
      var last := txs[|txs| - 1];
      SavingsUpToLast(txs, n - 1);
      MonthTotalLast(txs, MonthCode(n), Savings);
      MonthOfExact(last, n);
      assert InMonthOfKind(MonthCode(n), Savings)(last) <==> last.kind == Savings && MonthOf(last) == n;
    }
  }

  lemma {:induction false} SavingsUpToIsDatedSavings(txs: seq<Transaction>, n: nat)
    requires n <= 12
    ensures SavingsUpTo(txs, n) == Seqs.Sum(Seqs.Filter(txs, DatedSavings(n)), Amount)
  {
    if txs != [] {
      SavingsUpToIsDatedSavings(txs[..|txs| - 1], n);
      SavingsUpToLast(txs, n);
      DatedSavingsLast(txs, n);
    } else {
      EmptySavingsUpTo(n);
    }
  }

  lemma DatedSavingsLast(txs: seq<Transaction>, n: nat)
    requires txs != []
    ensures var last := txs[|txs| - 1];
            Seqs.Sum(Seqs.Filter(txs, DatedSavings(n)), Amount)
            == Seqs.Sum(Seqs.Filter(txs[..|txs| - 1], DatedSavings(n)), Amount) + (if DatedSavings(n)(last) then last.amount else 0)
  {
    var last := txs[|txs| - 1];
    var tail := if DatedSavings(n)(last) then [last] else [];
    Seqs.SumAppend(Seqs.Filter(txs[..|txs| - 1], DatedSavings(n)), tail, Amount);
    assert [last][..0] == [];
  }

  lemma {:induction false} EmptySavingsUpTo(n: nat)
    requires n <= 12
    ensures SavingsUpTo([], n) == 0
  {
    if n > 0 {
      EmptySavingsUpTo(n - 1);
    }
  }

  lemma {:induction false} ChartPrefixSum(txs: seq<Transaction>, n: nat)
    requires n <= 12
    ensures Seqs.Sum(ChartData(txs)[..n], BucketSavings) == SavingsUpTo(txs, n)
  {
    if n > 0 {
      ChartPrefixSum(txs, n - 1);
      var c := ChartData(txs);
      Seqs.SumPrefix(c, BucketSavings, n);
      ChartBuckets(txs, n - 1);
    }
  }

  /**
   * Summed over the twelve buckets, the deposit series is the total of all
   * deposits whose date's month field is `01` to `12`, whatever the year.
   */
  lemma ChartSavingsTotal(txs: seq<Transaction>)
    ensures Seqs.Sum(ChartData(txs), BucketSavings) == Seqs.Sum(Seqs.Filter(txs, DatedSavings(12)), Amount)
  {
    assert Seqs.Sum(ChartData(txs), BucketSavings) == SavingsUpTo(txs, 12) by {
      ChartPrefixSum(txs, 12);
      Seqs.TakeAll(ChartData(txs));
    }
    SavingsUpToIsDatedSavings(txs, 12);
  }

  /** The pie chart's cash slice: cash in hand, or zero when that is negative. */
  function PieCash(s: Summary): (r: int)
    ensures r >= 0 && r >= s.cashInHand
    ensures r == s.cashInHand || r == 0
  {
    if s.cashInHand > 0 then s.cashInHand else 0
  }
}
