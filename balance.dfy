/**
 * The balance-update rule of the store: a savings deposit adds to the
 * savings balance, a withdrawal subtracts from it, a loan distribution adds
 * to the loan balance and a collection subtracts from it; every other type
 * leaves both balances alone. The member ledger folds the same rule.
 */
module Balance {
  import opened Types

  datatype Balances = Balances(savings: int, loan: int)

  const Zero: Balances := Balances(0, 0)

  /** One application of the four-case balance switch. */
  function Step(b: Balances, tx: Transaction): (r: Balances)
    ensures tx.kind == Savings ==> r.savings == b.savings + tx.amount && r.loan == b.loan
    ensures tx.kind == SavingsWithdrawal ==> r.savings == b.savings - tx.amount && r.loan == b.loan
    ensures tx.kind == LoanDistribution ==> r.loan == b.loan + tx.amount && r.savings == b.savings
    ensures tx.kind == LoanCollection ==> r.loan == b.loan - tx.amount && r.savings == b.savings
    ensures tx.kind == Expense || tx.kind == BankDeposit || tx.kind == BankWithdrawal ==> r == b
  {
    match tx.kind
    case Savings => b.(savings := b.savings + tx.amount)
    case SavingsWithdrawal => b.(savings := b.savings - tx.amount)
    case LoanDistribution => b.(loan := b.loan + tx.amount)
    case LoanCollection => b.(loan := b.loan - tx.amount)
    case _ => b
  }

  /** The types that never move a member balance: expenses and the two bank entries. */
  predicate CashOnly(k: TxType) {
    k == Expense || k == BankDeposit || k == BankWithdrawal
  }

  /**
   * The rule folded over a list of transactions, first to last, from `b`;
   * expenses and bank entries leave the balances where they started.
   */
  function Fold(b: Balances, txs: seq<Transaction>): (r: Balances)
    ensures (forall i :: 0 <= i < |txs| ==> CashOnly(txs[i].kind)) ==> r == b
  {
    if txs == [] then b else Step(Fold(b, txs[..|txs| - 1]), txs[|txs| - 1])
  }

  /** A member's cached savings balance, as the sums over the member list read it. */
  function SavingsOf(m: Member): int {
    m.totalSavings
  }

  /** A member's cached loan balance, as the sums over the member list read it. */
  function LoanOf(m: Member): int {
    m.totalLoan
  }

  /** The filter condition `m => m.totalLoan > 0`: the member owes something. */
  function HasLoan(m: Member): bool {
    m.totalLoan > 0
  }

  /**
   * `m.totalLoan * 0.1`: the loan due shown for a member, a tenth of the
   * outstanding loan, positive exactly when the member owes something.
   */
  function LoanDueAmount(m: Member): (r: real)
    ensures r * 10.0 == m.totalLoan as real
    ensures r > 0.0 <==> HasLoan(m)
  {
    m.totalLoan as real * 0.1
  }

  /** A transaction's amount, as the sums over the log read it. */
  function Amount(t: Transaction): int {
    t.amount
  }

  /** The filter condition `t => t.type === k`. */
  function OfKind(k: TxType): Transaction -> bool {
    (t: Transaction) => t.kind == k
  }

  /** The summed amounts of the transactions of one type. */
  function SumKind(txs: seq<Transaction>, k: TxType): int {
    if txs == [] then 0
    else SumKind(txs[..|txs| - 1], k) + (if txs[|txs| - 1].kind == k then txs[|txs| - 1].amount else 0)
  }

  lemma SumKindAppendOne(txs: seq<Transaction>, t: Transaction, k: TxType)
    ensures SumKind(txs + [t], k) == SumKind(txs, k) + KindAmount(t, k)
  {
    assert (txs + [t])[..|txs|] == txs;
  }

  lemma {:induction false} FoldAppendOne(b: Balances, txs: seq<Transaction>, t: Transaction)
    ensures Fold(b, txs + [t]) == Step(Fold(b, txs), t)
  {
    assert (txs + [t])[..|txs|] == txs;
  }

  /**
   * Folding the rule gives the starting balances plus deposits minus
   * withdrawals, and plus distributions minus collections.
   */
  lemma {:induction false} FoldIsNetSums(b: Balances, txs: seq<Transaction>)
    ensures Fold(b, txs).savings == b.savings + SumKind(txs, Savings) - SumKind(txs, SavingsWithdrawal)
    ensures Fold(b, txs).loan == b.loan + SumKind(txs, LoanDistribution) - SumKind(txs, LoanCollection)
  {
    if txs != [] {
      FoldIsNetSums(b, txs[..|txs| - 1]);
    }
  }

  lemma {:induction false} SumKindAppend(a: seq<Transaction>, c: seq<Transaction>, k: TxType)
    ensures SumKind(a + c, k) == SumKind(a, k) + SumKind(c, k)
    decreases |c|
  {
    if c == [] {
      assert a + c == a;
    } else {
      assert (a + c)[..|a + c| - 1] == a + c[..|c| - 1];
      SumKindAppend(a, c[..|c| - 1], k);
    }
  }

  /** The contribution of one transaction to the total of type `k`. */
  function KindAmount(t: Transaction, k: TxType): int {
    if t.kind == k then t.amount else 0
  }

  /** Taking one transaction out of a list takes its contribution out of the total. */
  lemma SumKindRemove(q: seq<Transaction>, j: nat, k: TxType)
    requires j < |q|
    ensures SumKind(q, k) == SumKind(q[..j] + q[j + 1..], k) + KindAmount(q[j], k)
  {
    assert q == q[..j] + [q[j]] + q[j + 1..];
    SumKindAppend(q[..j] + [q[j]], q[j + 1..], k);
    SumKindAppend(q[..j], [q[j]], k);
    SumKindAppend(q[..j], q[j + 1..], k);
    assert [q[j]][..0] == [];
  }

  /** Removing the same element from two permutations of each other leaves permutations. */
  lemma MultisetRemoveBoth(p: seq<Transaction>, q: seq<Transaction>, j: nat)
    requires multiset(p) == multiset(q) && p != [] && j < |q| && q[j] == p[|p| - 1]
    ensures multiset(p[..|p| - 1]) == multiset(q[..j] + q[j + 1..])
  {
    var p', q1, q2 := p[..|p| - 1], q[..j], q[j + 1..];
    assert p == p' + [p[|p| - 1]];
    assert multiset(p) == multiset(p') + multiset{p[|p| - 1]};
    assert q == q1 + [q[j]] + q2;
    assert multiset(q) == multiset(q1) + multiset{q[j]} + multiset(q2);
    assert multiset(q1 + q2) == multiset(q1) + multiset(q2);
    forall y ensures multiset(p')[y] == multiset(q1 + q2)[y] {
      assert multiset(p)[y] == multiset(p')[y] + multiset{p[|p| - 1]}[y];
      assert multiset(q)[y] == multiset(q1 + q2)[y] + multiset{q[j]}[y];
    }
  }

  /** A per-type total does not depend on the order of the transactions. */
  lemma {:induction false} SumKindPermutation(p: seq<Transaction>, q: seq<Transaction>, k: TxType)
    requires multiset(p) == multiset(q)
    ensures SumKind(p, k) == SumKind(q, k)
    decreases |p|
  {
    if p == [] {
      assert |multiset(q)| == 0;
    } else {
      var last := p[|p| - 1];
      assert last in multiset(q) by {
        assert last in multiset(p);
      }
      var j :| 0 <= j < |q| && q[j] == last;
      MultisetRemoveBoth(p, q, j);
      SumKindPermutation(p[..|p| - 1], q[..j] + q[j + 1..], k);
      SumKindRemove(q, j, k);
    }
  }

  /**
   * The folded balances do not depend on the order of the transactions,
   * because every step only adds or subtracts.
   */
  lemma FoldOrderIndependent(b: Balances, p: seq<Transaction>, q: seq<Transaction>)
    requires multiset(p) == multiset(q)
    ensures Fold(b, p) == Fold(b, q)
  {
    FoldIsNetSums(b, p);
    FoldIsNetSums(b, q);
    SumKindPermutation(p, q, Savings);
    SumKindPermutation(p, q, SavingsWithdrawal);
    SumKindPermutation(p, q, LoanDistribution);
    SumKindPermutation(p, q, LoanCollection);
  }
}
