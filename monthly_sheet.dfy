/**
 * The monthly statement sheet: three figures (the month's closing balance,
 * the money out on loan, the total capital) computed from a fixed record of
 * inputs that does not depend on the month chosen.
 */
module MonthlySheet {

  datatype FinancialData = FinancialData(
    previousBalance: int, savingsCollection: int, loanCollection: int, netIncome: int,
    bankWithdrawal: int, expensesAndWithdrawals: int, bankDeposit: int,
    currentInvestment: int, investmentCollected: int, newLoanDistribution: int,
    bankBalance: int)

  /** The sheet's inputs for a month: the same fixed figures whatever the month. */
  function FinancialDataFor(selectedMonth: string): FinancialData {
    FinancialData(125400, 52400, 35000, 8500, 20000, 15200, 40000, 185000, 35000, 50000, 245000)
  }

  /**
   * The closing balance: what came in on top of the previous balance, less
   * what went out; it ends at or above the previous balance exactly when the
   * month's inflows cover its outflows.
   */
  function MonthlyBalance(d: FinancialData): (r: int)
    ensures r >= d.previousBalance <==>
              d.savingsCollection + d.loanCollection + d.netIncome >= d.bankWithdrawal + d.expensesAndWithdrawals + d.bankDeposit
  {
    (d.previousBalance + d.savingsCollection + d.loanCollection + d.netIncome)
      - (d.bankWithdrawal + d.expensesAndWithdrawals + d.bankDeposit)
  }

  /**
   * The money out on loan: the current investment, less what was collected,
   * plus new loans; it grows exactly when new loans exceed the collections.
   */
  function TotalInvestment(d: FinancialData): (r: int)
    ensures r > d.currentInvestment <==> d.newLoanDistribution > d.investmentCollected
  {
    d.currentInvestment - d.investmentCollected + d.newLoanDistribution
  }

  /**
   * The capital: the closing balance, the bank balance and the money out on
   * loan. In terms of the inputs, every inflow and the bank balance count
   * once, every outflow and the investment collected are taken off once, and
   * the current investment and new loans count once.
   */
  function TotalCapital(d: FinancialData): (r: int)
    ensures r == d.previousBalance + d.savingsCollection + d.loanCollection + d.netIncome
                 - d.bankWithdrawal - d.expensesAndWithdrawals - d.bankDeposit
                 + d.bankBalance + d.currentInvestment - d.investmentCollected + d.newLoanDistribution
  {
    MonthlyBalance(d) + d.bankBalance + TotalInvestment(d)
  }

  /** With the fixed figures the sheet shows 146100, 200000 and 591100, for every month. */
  lemma FixedFigures(selectedMonth: string)
    ensures MonthlyBalance(FinancialDataFor(selectedMonth)) == 146100
    ensures TotalInvestment(FinancialDataFor(selectedMonth)) == 200000
    ensures TotalCapital(FinancialDataFor(selectedMonth)) == 591100
  {
  }

  /** The figures do not depend on the month chosen. */
  lemma MonthIgnored(m1: string, m2: string)
    ensures MonthlyBalance(FinancialDataFor(m1)) == MonthlyBalance(FinancialDataFor(m2))
    ensures TotalInvestment(FinancialDataFor(m1)) == TotalInvestment(FinancialDataFor(m2))
    ensures TotalCapital(FinancialDataFor(m1)) == TotalCapital(FinancialDataFor(m2))
  {
  }
}
