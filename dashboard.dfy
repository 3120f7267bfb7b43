/**
 * The dashboard: five summary figures over the member list and the log,
 * and the grid of navigation cards, one of which is locked for non-admins.
 * "Today" (`YYYY-MM-DD`) and "this month" (`YYYY-MM`) are parameters.
 */
module Dashboard {
  import opened Types
  import opened Balance
  import Seqs

  /** The two types the dashboard counts as collections. */
  predicate IsCollection(k: TxType) {
    k == Savings || k == LoanCollection
  }

  /** `t.date.startsWith(thisMonth)` and a collection type. */
  function InMonth(thisMonth: string): Transaction -> bool {
    (t: Transaction) => thisMonth <= t.date && IsCollection(t.kind)
  }

  /** `t.date === today` and a collection type. */
  function OnDay(today: string): Transaction -> bool {
    (t: Transaction) => t.date == today && IsCollection(t.kind)
  }

  /**
   * This month's collections: never negative when no amount is, and zero
   * when the log holds no deposit or loan collection.
   */
  function MonthlyCollection(txs: seq<Transaction>, thisMonth: string): (r: int)
    ensures (forall t :: t in txs ==> t.amount >= 0) ==> r >= 0
    ensures (forall t :: t in txs ==> !IsCollection(t.kind)) ==> r == 0
  {
    var picked := Seqs.Filter(txs, InMonth(thisMonth));
    assert (forall t :: t in txs ==> t.amount >= 0) ==> Seqs.Sum(picked, Amount) >= 0 by {
      if forall t :: t in txs ==> t.amount >= 0 {
        Seqs.SumNonNegative(picked, Amount);
      }
    }
    assert (forall t :: t in txs ==> !IsCollection(t.kind)) ==> picked == [] by {
      if picked != [] {
        assert picked[0] in picked;
      }
    }
    Seqs.Sum(picked, Amount)
  }

  /** Today's collections, with the same two guarantees. */
  function TodayCollection(txs: seq<Transaction>, today: string): (r: int)
    ensures (forall t :: t in txs ==> t.amount >= 0) ==> r >= 0
    ensures (forall t :: t in txs ==> !IsCollection(t.kind)) ==> r == 0
  {
    var picked := Seqs.Filter(txs, OnDay(today));
    assert (forall t :: t in txs ==> t.amount >= 0) ==> Seqs.Sum(picked, Amount) >= 0 by {
      if forall t :: t in txs ==> t.amount >= 0 {
        Seqs.SumNonNegative(picked, Amount);
      }
    }
    assert (forall t :: t in txs ==> !IsCollection(t.kind)) ==> picked == [] by {
      if picked != [] {
        assert picked[0] in picked;
      }
    }
    Seqs.Sum(picked, Amount)
  }

  /** The approximate outstanding dues. */
  function TotalDue(ms: seq<Member>): (r: real)
    ensures r >= 0.0
  {
    var owing := Seqs.Filter(ms, HasLoan);
    Seqs.RealSumNonNegative(owing, LoanDueAmount);
    Seqs.RealSum(owing, LoanDueAmount)
  }

  datatype Metrics = Metrics(totalMembers: nat, monthlyCollection: int, todayCollection: int,
                             totalLoan: int, totalDue: real)

  /** The summary strip under the cards. */
  function ComputeMetrics(ms: seq<Member>, txs: seq<Transaction>, today: string, thisMonth: string): (r: Metrics)
    ensures r.totalMembers == |ms|
    ensures r.totalDue >= 0.0
  {
    Metrics(|ms|, MonthlyCollection(txs, thisMonth), TodayCollection(txs, today),
            Seqs.Sum(ms, LoanOf), TotalDue(ms))
  }

  /**
   * Today's collection never exceeds this month's when today falls in this
   * month and no amount is negative.
   */
  lemma {:induction false} TodayAtMostMonthly(txs: seq<Transaction>, today: string, thisMonth: string)
    requires thisMonth <= today
    requires forall t :: t in txs ==> t.amount >= 0
    ensures TodayCollection(txs, today) <= MonthlyCollection(txs, thisMonth)
  {
    if txs != [] {
      var front, last := txs[..|txs| - 1], txs[|txs| - 1];
      assert txs == front + [last];
      TodayAtMostMonthly(front, today, thisMonth);
      Seqs.FilterAppendOne(front, last, OnDay(today));
      Seqs.FilterAppendOne(front, last, InMonth(thisMonth));
      var d := if OnDay(today)(last) then [last] else [];
      var m := if InMonth(thisMonth)(last) then [last] else [];
      Seqs.SumAppend(Seqs.Filter(front, OnDay(today)), d, Amount);
      Seqs.SumAppend(Seqs.Filter(front, InMonth(thisMonth)), m, Amount);
      assert [last][..0] == [];
    }
  }

  /**
   * Logging an entry that is not a collection leaves both collection
   * figures as they were; logging a collection dated today adds its amount
   * to both; logging a collection dated on another day leaves today's
   * figure as it was.
   */
  lemma CollectionsAfterLogging(txs: seq<Transaction>, t: Transaction, today: string, thisMonth: string)
    requires thisMonth <= today
    ensures !IsCollection(t.kind) ==>
              MonthlyCollection(txs + [t], thisMonth) == MonthlyCollection(txs, thisMonth)
              && TodayCollection(txs + [t], today) == TodayCollection(txs, today)
    ensures IsCollection(t.kind) && t.date == today ==>
              MonthlyCollection(txs + [t], thisMonth) == MonthlyCollection(txs, thisMonth) + t.amount
              && TodayCollection(txs + [t], today) == TodayCollection(txs, today) + t.amount
    ensures IsCollection(t.kind) && t.date != today ==>
              TodayCollection(txs + [t], today) == TodayCollection(txs, today)
  {
    Seqs.FilterAppendOne(txs, t, OnDay(today));
    Seqs.FilterAppendOne(txs, t, InMonth(thisMonth));
    var d := if OnDay(today)(t) then [t] else [];
    var m := if InMonth(thisMonth)(t) then [t] else [];
    Seqs.SumAppend(Seqs.Filter(txs, OnDay(today)), d, Amount);
    Seqs.SumAppend(Seqs.Filter(txs, InMonth(thisMonth)), m, Amount);
    assert [t][..0] == [];
  }

  /** `t.date.startsWith(thisMonth)`, whatever the type. */
  function StartsMonth(thisMonth: string): Transaction -> bool {
    (t: Transaction) => thisMonth <= t.date
  }

  /** This month's collection, as the month's deposits plus the month's loan collections. */
  lemma {:induction false} MonthlyIsDepositsPlusCollections(txs: seq<Transaction>, thisMonth: string)
    ensures var month := Seqs.Filter(txs, StartsMonth(thisMonth));
            MonthlyCollection(txs, thisMonth) == SumKind(month, Savings) + SumKind(month, LoanCollection)
  {
    if txs != [] {
      var front, last := txs[..|txs| - 1], txs[|txs| - 1];
      assert txs == front + [last];
      MonthlyIsDepositsPlusCollections(front, thisMonth);
      MonthlyStep(front, last, thisMonth);
      MonthKindsStep(front, last, thisMonth);
    }
  }

  lemma MonthlyStep(front: seq<Transaction>, last: Transaction, thisMonth: string)
    ensures MonthlyCollection(front + [last], thisMonth)
            == MonthlyCollection(front, thisMonth) + (if InMonth(thisMonth)(last) then last.amount else 0)
  {
    Seqs.FilterAppendOne(front, last, InMonth(thisMonth));
    var m := if InMonth(thisMonth)(last) then [last] else [];
    Seqs.SumAppend(Seqs.Filter(front, InMonth(thisMonth)), m, Amount);
    assert [last][..0] == [];
  }

  /** `t.date === today`, whatever the type. */
  function OnDate(today: string): Transaction -> bool {
    (t: Transaction) => t.date == today
  }

  /** Today's collection, as today's deposits plus today's loan collections. */
  lemma {:induction false} TodayIsDepositsPlusCollections(txs: seq<Transaction>, today: string)
    ensures var day := Seqs.Filter(txs, OnDate(today));
            TodayCollection(txs, today) == SumKind(day, Savings) + SumKind(day, LoanCollection)
  {
    if txs != [] {
      var front, last := txs[..|txs| - 1], txs[|txs| - 1];
      assert txs == front + [last];
      TodayIsDepositsPlusCollections(front, today);
      TodayStep(front, last, today);
      DayKindsStep(front, last, today);
    }
  }

  lemma TodayStep(front: seq<Transaction>, last: Transaction, today: string)
    ensures TodayCollection(front + [last], today)
            == TodayCollection(front, today) + (if OnDay(today)(last) then last.amount else 0)
  {
    Seqs.FilterAppendOne(front, last, OnDay(today));
    var d := if OnDay(today)(last) then [last] else [];
    Seqs.SumAppend(Seqs.Filter(front, OnDay(today)), d, Amount);
    assert [last][..0] == [];
  }

  lemma DayKindsStep(front: seq<Transaction>, last: Transaction, today: string)
    ensures var d0 := Seqs.Filter(front, OnDate(today));
            var d1 := Seqs.Filter(front + [last], OnDate(today));
            SumKind(d1, Savings) + SumKind(d1, LoanCollection)
            == SumKind(d0, Savings) + SumKind(d0, LoanCollection) + (if OnDay(today)(last) then last.amount else 0)
  {
    Seqs.FilterAppendOne(front, last, OnDate(today));
    var d0 := Seqs.Filter(front, OnDate(today));
    var k := if OnDate(today)(last) then [last] else [];
    SumKindAppend(d0, k, Savings);
    SumKindAppend(d0, k, LoanCollection);
    assert [last][..0] == [];
  }

  lemma MonthKindsStep(front: seq<Transaction>, last: Transaction, thisMonth: string)
    ensures var m0 := Seqs.Filter(front, StartsMonth(thisMonth));
            var m1 := Seqs.Filter(front + [last], StartsMonth(thisMonth));
            SumKind(m1, Savings) + SumKind(m1, LoanCollection)
            == SumKind(m0, Savings) + SumKind(m0, LoanCollection) + (if InMonth(thisMonth)(last) then last.amount else 0)
  {
    Seqs.FilterAppendOne(front, last, StartsMonth(thisMonth));
    var m0 := Seqs.Filter(front, StartsMonth(thisMonth));
    var k := if StartsMonth(thisMonth)(last) then [last] else [];
    SumKindAppend(m0, k, Savings);
    SumKindAppend(m0, k, LoanCollection);
    assert [last][..0] == [];
  }

  /** A member without a positive loan adds nothing to the dues; one with a loan adds a tenth of it. */
  lemma DueAfterAdding(ms: seq<Member>, m: Member)
    ensures TotalDue(ms + [m]) == TotalDue(ms) + (if m.totalLoan > 0 then m.totalLoan as real * 0.1 else 0.0)
  {
    Seqs.FilterAppendOne(ms, m, HasLoan);
    Seqs.RealSumAppend(Seqs.Filter(ms, HasLoan), if HasLoan(m) then [m] else [], LoanDueAmount);
    assert [m][..0] == [];
  }

  // ---------------------------------------------------------------------
  // Cards

  /** A navigation card: the screen it opens and whether it is admin-only. */
  datatype Card = Card(view: ViewType, restricted: bool)

  /** The sixteen cards, in grid order. */
  function Cards(): seq<Card> {
    [ Card(NEW_MEMBER, false), Card(MEMBER_LIST, false), Card(MEMBER_LEDGER, false),
      Card(SAVINGS_COLLECTION, false), Card(LOAN_COLLECTION, false), Card(LOAN_DISTRIBUTION, false),
      Card(PROFIT, false), Card(PROFIT_DISTRIBUTION, true), Card(EXPENSE, false),
      Card(BANK_DEPOSIT, false), Card(SAVINGS_DUE, false), Card(LOAN_DUE, false),
      Card(SAVINGS_VIEW, false), Card(LOAN_VIEW, false), Card(SAVINGS_WITHDRAWAL, false),
      Card(REPORTS, false) ]
  }

  /** A card is locked when it is admin-only and the user is not an admin. */
  predicate IsLocked(card: Card, role: Role) {
    card.restricted && role != RoleAdmin
  }

  /** Clicking a card: the screen to open, or nothing when the card is locked. */
  function Click(card: Card, role: Role): (r: Option<ViewType>)
    ensures r.Some? <==> !IsLocked(card, role)
    ensures r.Some? ==> r.value == card.view
  {
    if IsLocked(card, role) then None else Some(card.view)
  }

  /** The sixteen cards open sixteen different screens. */
  lemma CardsDistinct()
    ensures |Cards()| == 16
    ensures forall i, j :: 0 <= i < j < |Cards()| ==> Cards()[i].view != Cards()[j].view
  {
    var vs := seq(16, i requires 0 <= i < 16 => Cards()[i].view);
    assert vs == [NEW_MEMBER, MEMBER_LIST, MEMBER_LEDGER, SAVINGS_COLLECTION, LOAN_COLLECTION,
                  LOAN_DISTRIBUTION, PROFIT, PROFIT_DISTRIBUTION, EXPENSE, BANK_DEPOSIT, SAVINGS_DUE,
                  LOAN_DUE, SAVINGS_VIEW, LOAN_VIEW, SAVINGS_WITHDRAWAL, REPORTS];
  }

  /**
   * Only the profit distribution card is admin-only, so an admin can open
   * every card and a plain user every card but that one.
   */
  lemma CardLocking()
    ensures forall c :: c in Cards() ==> (c.restricted <==> c.view == PROFIT_DISTRIBUTION)
    ensures forall c :: c in Cards() ==> Click(c, RoleAdmin) == Some(c.view)
    ensures forall c :: c in Cards() ==> (Click(c, RoleUser).None? <==> c.view == PROFIT_DISTRIBUTION)
  {
    OnlyProfitDistributionRestricted();
  }

  lemma OnlyProfitDistributionRestricted()
    ensures forall c :: c in Cards() ==> (c.restricted <==> c.view == PROFIT_DISTRIBUTION)
  {
  }
}
