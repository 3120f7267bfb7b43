/**
 * The records of the savings society: users, members and transactions,
 * and the dashboard's view identifiers. They carry no behaviour.
 */
module Types {

  datatype Option<+T> = None | Some(value: T) {
    /** `value || fallback` in the source, for a value that may be missing. */
    function GetOr(fallback: T): T {
      match this
      case Some(v) => v
      case None => fallback
    }
  }

  datatype Role = RoleAdmin | RoleUser

  /** A login account. */
  datatype User = User(id: string, username: string, name: string, role: Role, password: string)

  /**
   * A society member. `totalSavings` and `totalLoan` are cached running
   * balances that the store adjusts on every posted transaction.
   */
  datatype Member = Member(
    id: string,
    name: string,
    fatherName: string,
    phone: string,
    nid: string,
    address: string,
    joinDate: string,
    totalSavings: int,
    totalLoan: int)

  /** The seven transaction types. */
  datatype TxType =
    | Savings
    | LoanCollection
    | LoanDistribution
    | Expense
    | SavingsWithdrawal
    | BankDeposit
    | BankWithdrawal

  /**
   * One entry of the append-only log. `memberName` is a snapshot of the
   * name at posting time; `memberId` is `"SYSTEM"` for entries without a member.
   */
  datatype Transaction = Transaction(
    id: string,
    memberId: string,
    memberName: string,
    date: string,
    amount: int,
    kind: TxType,
    remarks: Option<string>)

  /** The screens of the application, as the dashboard cards name them. */
  datatype ViewType =
    | DASHBOARD
    | NEW_MEMBER
    | MEMBER_LIST
    | SAVINGS_COLLECTION
    | LOAN_COLLECTION
    | LOAN_DISTRIBUTION
    | EXPENSE
    | SAVINGS_DUE
    | LOAN_DUE
    | SAVINGS_VIEW
    | LOAN_VIEW
    | SAVINGS_WITHDRAWAL
    | REPORTS
    | PROFIT
    | BANK_DEPOSIT
    | MONTHLY_SHEET
    | MEMBER_LEDGER
    | PROFIT_DISTRIBUTION
    | USER_MANAGEMENT
    | CHANGE_PASSWORD

  /** The member id and name the forms use for entries without a member. */
  const SYSTEM: string := "SYSTEM"
}
