/**
 * The transaction entry form: which types need a member, the entry it
 * builds (dated today, posted under `SYSTEM` without a member), the submit
 * that posts it through the store, the member search and the loan preview.
 */
module TransactionForm {
  import opened Types
  import opened Balance
  import opened Text
  import Seqs
  import Db

  /**
   * Every type but expenses and bank deposits must name a member: deposits,
   * withdrawals, both loan types and bank withdrawals.
   */
  predicate NeedsMember(k: TxType)
    ensures NeedsMember(k) <==> k in {Savings, SavingsWithdrawal, LoanDistribution, LoanCollection, BankWithdrawal}
  {
    k != Expense && k != BankDeposit
  }

  /** `selectedMember?.id || 'SYSTEM'`: a missing or empty id becomes `SYSTEM`. */
  function MemberIdOf(selected: Option<Member>): (r: string)
    ensures selected.Some? && selected.value.id != "" ==> r == selected.value.id
    ensures selected.None? || selected.value.id == "" ==> r == SYSTEM
  {
    if selected.Some? && selected.value.id != "" then selected.value.id else SYSTEM
  }

  /** `selectedMember?.name || 'SYSTEM'`. */
  function MemberNameOf(selected: Option<Member>): (r: string)
    ensures selected.Some? && selected.value.name != "" ==> r == selected.value.name
    ensures selected.None? || selected.value.name == "" ==> r == SYSTEM
  {
    if selected.Some? && selected.value.name != "" then selected.value.name else SYSTEM
  }

  /**
   * The entry the form builds: dated today whatever the date field shows,
   * with the form's type, the amount as read, and the remarks as typed.
   */
  function BuildTx(selected: Option<Member>, kind: TxType, amount: int, remarks: string,
                   stamp: string, today: string): (t: Transaction)
    ensures t.memberId == MemberIdOf(selected) && t.memberName == MemberNameOf(selected)
    ensures t.date == today && t.kind == kind && t.amount == amount && t.remarks == Some(remarks)
  {
    Transaction("TX-" + stamp, MemberIdOf(selected), MemberNameOf(selected), today, amount, kind, Some(remarks))
  }

  /**
   * Submitting is refused exactly when the type needs a member and none is
   * chosen: with a member chosen every type is accepted, and without one
   * only expenses and bank deposits are.
   */
  predicate Accepts(kind: TxType, selected: Option<Member>)
    ensures Accepts(kind, selected) <==> selected.Some? || kind == Expense || kind == BankDeposit
  {
    !(NeedsMember(kind) && selected.None?)
  }

  /**
   * Submitting the form: refused without a chosen member when one is
   * needed; otherwise exactly one entry is posted through the store.
   */
  method HandleSubmit(store: Db.Store, kind: TxType, selected: Option<Member>, amount: int, remarks: string,
                      stamp: string, today: string) returns (accepted: bool)
    modifies store
    ensures accepted <==> Accepts(kind, selected)
    ensures !accepted ==> store.transactions == old(store.transactions) && store.members == old(store.members)
    ensures accepted ==>
              store.GetTransactions() == old(store.GetTransactions()) + [BuildTx(selected, kind, amount, remarks, stamp, today)]
              && store.GetMembers() == Db.Post(old(store.GetMembers()), BuildTx(selected, kind, amount, remarks, stamp, today))
    ensures store.users == old(store.users)
  {
    var needsMember := kind != Expense && kind != BankDeposit;
    if needsMember && selected.None? {
      return false;
    }
    var tx := BuildTx(selected, kind, amount, remarks, stamp, today);
    store.AddTransaction(tx);
    return true;
  }

  /**
   * An expense or bank deposit entered without a member is posted under
   * `SYSTEM`, and changes no member as long as none has that id.
   */
  lemma SystemEntryTouchesNoMember(ms: seq<Member>, kind: TxType, amount: int, remarks: string,
                                   stamp: string, today: string)
    requires !NeedsMember(kind)
    requires forall j :: 0 <= j < |ms| ==> ms[j].id != SYSTEM
    ensures Accepts(kind, None)
    ensures Db.Post(ms, BuildTx(None, kind, amount, remarks, stamp, today)) == ms
  {
  }

  /**
   * A chosen member whose id is empty is not credited: the entry goes to
   * `SYSTEM` instead, so the member list is unchanged when no member has
   * that id.
   */
  lemma EmptyIdFallsBackToSystem(ms: seq<Member>, m: Member, kind: TxType, amount: int, remarks: string,
                                 stamp: string, today: string)
    requires m.id == ""
    requires forall j :: 0 <= j < |ms| ==> ms[j].id != SYSTEM
    ensures BuildTx(Some(m), kind, amount, remarks, stamp, today).memberId == SYSTEM
    ensures Db.Post(ms, BuildTx(Some(m), kind, amount, remarks, stamp, today)) == ms
  {
  }

  /** A chosen member with an id is credited by the balance rule, as the first member with that id. */
  lemma ChosenMemberCredited(ms: seq<Member>, i: nat, kind: TxType, amount: int, remarks: string,
                             stamp: string, today: string)
    requires i < |ms| && ms[i].id != "" && Db.IsFirst(ms, i, ms[i].id)
    ensures var t := BuildTx(Some(ms[i]), kind, amount, remarks, stamp, today);
            Db.BalanceOf(Db.Post(ms, t)[i]) == Step(Db.BalanceOf(ms[i]), t)
  {
  }

  // ---------------------------------------------------------------------
  // Member search

  /** The search: the lower-cased id includes the lower-cased query, or the name or phone includes it. */
  function MatchesQuery(query: string): Member -> bool {
    (m: Member) => Contains(Lower(m.id), Lower(query)) || Contains(m.name, query) || Contains(m.phone, query)
  }

  function FilteredMembers(ms: seq<Member>, query: string): (r: seq<Member>)
    ensures forall m :: m in r <==> m in ms && MatchesQuery(query)(m)
    ensures Seqs.IsSublist(r, ms)
  {
    Seqs.FilterSublist(ms, MatchesQuery(query));
    Seqs.Filter(ms, MatchesQuery(query))
  }

  lemma ContainsSelf(s: string)
    ensures Contains(s, s)
  {
    assert OccursAt(s, s, 0);
  }

  /** A member is found by its id typed in any mix of upper and lower case. */
  lemma IdFoundIgnoringCase(ms: seq<Member>, m: Member, query: string)
    requires m in ms && Lower(query) == Lower(m.id)
    ensures m in FilteredMembers(ms, query)
  {
    ContainsSelf(Lower(m.id));
  }

  /** The empty query lists every member. */
  lemma EmptyQueryListsAll(ms: seq<Member>)
    ensures FilteredMembers(ms, "") == ms
  {
    forall m | m in ms ensures MatchesQuery("")(m) {
      ContainsEmpty(m.name);
    }
    Seqs.FilterAll(ms, MatchesQuery(""));
  }

  // ---------------------------------------------------------------------
  // Loan preview

  datatype LoanPreview = LoanPreview(profit: real, totalRepayable: real, installment: real)

  /**
   * The preview under a loan distribution: a 10% profit on the amount (zero
   * when it does not read as a number), the amount plus the profit to be
   * repaid, in eleven equal instalments.
   */
  function Preview(parsedAmount: Option<int>): (r: LoanPreview)
    ensures var n := (if parsedAmount.Some? then parsedAmount.value else 0) as real;
            r.profit * 10.0 == n && r.totalRepayable == n + r.profit && r.installment * 11.0 == r.totalRepayable
  {
    var numAmount := parsedAmount.GetOr(0) as real;
    var loanProfit := numAmount * 0.1;
    var totalRepayable := numAmount + loanProfit;
    LoanPreview(loanProfit, totalRepayable, totalRepayable / 11.0)
  }

  /**
   * The preview describes the loan the form posts: for an amount that reads
   * as a number, the loan balance the posted distribution adds is ten
   * instalments, the profit is one instalment, and the sum to repay is the
   * posted loan plus that profit, eleven instalments in all.
   */
  lemma PreviewOfPostedLoan(b: Balances, selected: Option<Member>, amount: int, remarks: string,
                            stamp: string, today: string)
    ensures var p := Preview(Some(amount));
            var added := Step(b, BuildTx(selected, LoanDistribution, amount, remarks, stamp, today)).loan - b.loan;
            added as real == p.installment * 10.0
            && p.profit == p.installment
            && p.totalRepayable == added as real + p.profit
  {
  }

  /** A larger amount never previews a smaller instalment, and one that does not read as a number previews nothing owed. */
  lemma PreviewMonotone(a: int, c: int)
    requires a <= c
    ensures Preview(Some(a)).installment <= Preview(Some(c)).installment
    ensures Preview(None) == LoanPreview(0.0, 0.0, 0.0)
  {
  }

  /** A loan of 10000 repays 11000 in instalments of 1000. */
  lemma PreviewExample()
    ensures Preview(Some(10000)) == LoanPreview(1000.0, 11000.0, 1000.0)
  {
  }
}
