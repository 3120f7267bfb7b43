/**
 * The profit overview: five income categories, one of them the profit part
 * of the loan collections (a collection of eleven instalments carries one
 * instalment's worth of profit), and their total.
 */
module ProfitView {
  import Seqs

  /** `Math.round(n / 11)`: the whole number nearest to `n / 11`, a half rounding up. */
  function RoundDiv11(n: int): (r: int)
    ensures 22 * r - 11 <= 2 * n < 22 * r + 11
  {
    (2 * n + 11) / 22
  }

  /** The rounding bound pins the result down: no other whole number meets it. */
  lemma RoundDiv11Unique(n: int, q: int)
    requires 22 * q - 11 <= 2 * n < 22 * q + 11
    ensures q == RoundDiv11(n)
  {
  }

  datatype ProfitData = ProfitData(admissionFees: int, savingsFines: int, loanFines: int, loanFormFees: int,
                                   loanCollectionProfit: int, totalProfit: int)

  /**
   * The screen's figures, for a given total of loan collections: the fees
   * and fines are fixed at 12500, 3200, 4500 and 2100, the profit part is
   * the whole number nearest to one eleventh of the collections, and the
   * total is the 22300 of fees and fines plus that part.
   */
  function ProfitDataFor(totalLoanCollection: int): (r: ProfitData)
    ensures r.admissionFees == 12500 && r.savingsFines == 3200 && r.loanFines == 4500 && r.loanFormFees == 2100
    ensures 22 * r.loanCollectionProfit - 11 <= 2 * totalLoanCollection < 22 * r.loanCollectionProfit + 11
    ensures r.totalProfit == 22300 + r.loanCollectionProfit
  {
    var loanCollectionProfit := RoundDiv11(totalLoanCollection);
    ProfitData(12500, 3200, 4500, 2100, loanCollectionProfit, 12500 + 3200 + 4500 + 2100 + loanCollectionProfit)
  }

  /** The collections total the screen shows. */
  const TotalLoanCollection: int := 203500

  datatype Category = Category(title: string, amount: int)

  /** The five category rows, in screen order. */
  function Categories(p: ProfitData): (r: seq<Category>)
    ensures |r| == 5
  {
    [ Category("ভর্তি ফি", p.admissionFees),
      Category("সঞ্চয় জরিমানা", p.savingsFines),
      Category("ঋণের জরিমানা", p.loanFines),
      Category("লোন ফরম ফি", p.loanFormFees),
      Category("ঋণ আদায়ের মুনাফা (১০%)", p.loanCollectionProfit) ]
  }

  function CategoryAmount(c: Category): int {
    c.amount
  }

  /**
   * The category rows add up to the total row, and none is negative when
   * the collections total is not.
   */
  lemma CategoriesSumToTotal(totalLoanCollection: int)
    ensures var p := ProfitDataFor(totalLoanCollection);
            Seqs.Sum(Categories(p), CategoryAmount) == p.totalProfit
    ensures totalLoanCollection >= 0 ==>
              forall c :: c in Categories(ProfitDataFor(totalLoanCollection)) ==> c.amount >= 0
  {
    var p := ProfitDataFor(totalLoanCollection);
    var cs := Categories(p);
    assert cs[..1][..0] == [];
    assert Seqs.Sum(cs[..1], CategoryAmount) == p.admissionFees;
    assert cs[..2][..1] == cs[..1];
    assert Seqs.Sum(cs[..2], CategoryAmount) == p.admissionFees + p.savingsFines;
    assert cs[..3][..2] == cs[..2];
    assert Seqs.Sum(cs[..3], CategoryAmount) == p.admissionFees + p.savingsFines + p.loanFines;
    assert cs[..4][..3] == cs[..3];
    assert Seqs.Sum(cs[..4], CategoryAmount) == p.admissionFees + p.savingsFines + p.loanFines + p.loanFormFees;
    assert cs[..5][..4] == cs[..4] && cs[..5] == cs;
  }

  /** For the 203500 collected the profit part is 18500 and the total profit 40800. */
  lemma ScreenFigures()
    ensures ProfitDataFor(TotalLoanCollection).loanCollectionProfit == 18500
    ensures ProfitDataFor(TotalLoanCollection).totalProfit == 40800
  {
    RoundDiv11Unique(203500, 18500);
  }
}
