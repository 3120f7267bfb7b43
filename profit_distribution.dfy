/**
 * The yearly profit distribution screen: a percentage rate, a set of chosen
 * members, the profit of each (its savings times the rate, rounded to the
 * nearest whole taka), the total shown before posting, and the posting of
 * one savings deposit per chosen member through the store.
 */
module ProfitDistribution {
  import opened Types
  import opened Balance
  import opened Text
  import Seqs
  import Db

  // ---------------------------------------------------------------------
  // The member search of the screen

  /** The search condition: the name or the id includes the term. */
  function MatchesSearch(term: string): Member -> bool {
    (m: Member) => Contains(m.name, term) || Contains(m.id, term)
  }

  /** The members listed for a search term, in store order. */
  function FilteredMembers(ms: seq<Member>, term: string): (r: seq<Member>)
    ensures forall m :: m in r <==> m in ms && (Contains(m.name, term) || Contains(m.id, term))
    ensures Seqs.IsSublist(r, ms)
  {
    Seqs.FilterSublist(ms, MatchesSearch(term));
    Seqs.Filter(ms, MatchesSearch(term))
  }

  /** An empty search term lists every member. */
  lemma EmptySearchListsAll(ms: seq<Member>)
    ensures FilteredMembers(ms, "") == ms
  {
    forall m | m in ms ensures MatchesSearch("")(m) {
      ContainsEmpty(m.name);
    }
    Seqs.FilterAll(ms, MatchesSearch(""));
  }

  // ---------------------------------------------------------------------
  // Selection

  /** Flipping one id in or out of the selection; the screen works on a copy of the set. */
  function ToggleMember(selected: set<string>, id: string): (r: set<string>)
    ensures id in r <==> id !in selected
    ensures forall x :: x != id ==> (x in r <==> x in selected)
  {
    if id in selected then selected - {id} else selected + {id}
  }

  /** Toggling the same id twice restores the selection. */
  lemma ToggleTwice(selected: set<string>, id: string)
    ensures ToggleMember(ToggleMember(selected, id), id) == selected
  {
  }

  /** The ids of a list of members. */
  function Ids(ms: seq<Member>): (r: set<string>)
    ensures forall id :: id in r <==> exists m :: m in ms && m.id == id
  {
    set m | m in ms :: m.id
  }

  /**
   * The "select all" button: when the number of chosen ids equals the number
   * of listed members the selection is cleared, otherwise it becomes the ids
   * of the listed members.
   */
  function ToggleSelectAll(selected: set<string>, listed: seq<Member>): (r: set<string>)
    ensures |selected| == |listed| ==> r == {}
    ensures |selected| != |listed| ==> r == Ids(listed)
  {
    if |selected| == |listed| then {} else Ids(listed)
  }

  /**
   * The button compares sizes only: with member 101 listed and member 102
   * chosen, pressing it clears the selection instead of choosing 101.
   */
  lemma SelectAllComparesSizesOnly(m101: Member, sel: set<string>)
    requires m101.id == "101" && sel == {"102"}
    ensures ToggleSelectAll(sel, [m101]) == {}
    ensures "101" !in ToggleSelectAll(sel, [m101])
  {
    assert |sel| == 1;
  }

  /** With nothing chosen and some member listed, the button chooses every listed member. */
  lemma SelectAllFromEmpty(listed: seq<Member>)
    requires listed != []
    ensures forall m :: m in listed ==> m.id in ToggleSelectAll({}, listed)
  {
  }

  // ---------------------------------------------------------------------
  // Profit

  /** `parseFloat(profitRate) || 0`: a rate that does not parse (`None`) counts as zero. */
  function EffectiveRate(parsed: Option<real>): (r: real)
    ensures parsed.None? ==> r == 0.0
    ensures parsed.Some? ==> r == parsed.value
  {
    match parsed
    case None => 0.0
    case Some(x) => x
  }

  /**
   * `Math.round(savings * rate / 100)`: the whole number nearest to the
   * exact profit, a half rounding up.
   */
  function CalculateProfit(savings: int, rate: real): (p: int)
    ensures -0.5 < p as real - savings as real * rate / 100.0 <= 0.5
  {
    var exact := savings as real * rate / 100.0;
    (exact + 0.5).Floor
  }

  /** The profit is the one whole number above the exact profit minus a half and at most the exact profit plus a half. */
  lemma ProfitUnique(savings: int, rate: real, q: int)
    requires -0.5 < q as real - savings as real * rate / 100.0 <= 0.5
    ensures q == CalculateProfit(savings, rate)
  {
  }

  /** A zero rate gives no profit; non-negative savings at a non-negative rate give non-negative profit. */
  lemma ProfitSign(savings: int, rate: real)
    ensures rate == 0.0 ==> CalculateProfit(savings, rate) == 0
    ensures savings >= 0 && rate >= 0.0 ==> CalculateProfit(savings, rate) >= 0
  {
    if savings >= 0 && rate >= 0.0 {
      assert savings as real * rate >= 0.0;
    }
  }

  /** More savings never earn less at a non-negative rate. */
  lemma ProfitMonotone(s1: int, s2: int, rate: real)
    requires s1 <= s2 && rate >= 0.0
    ensures CalculateProfit(s1, rate) <= CalculateProfit(s2, rate)
  {
    assert s1 as real * rate <= s2 as real * rate by {
      assert (s2 - s1) as real * rate >= 0.0;
    }
  }

  /** Seed member 102 with 8200 saved earns 820 at the default rate of 10%. */
  lemma DefaultRateExample()
    ensures CalculateProfit(8200, 10.0) == 820
  {
    ProfitUnique(8200, 10.0, 820);
  }

  /** A half rounds up, also below zero: 2.5 becomes 3 and -2.5 becomes -2. */
  lemma HalfRoundsUp()
    ensures CalculateProfit(25, 10.0) == 3
    ensures CalculateProfit(-25, 10.0) == -2
  {
    ProfitUnique(25, 10.0, 3);
    ProfitUnique(-25, 10.0, -2);
  }

  /** The profit credited to one member: its own if chosen, nothing otherwise. */
  function ProfitOf(selected: set<string>, rate: real): Member -> int {
    (m: Member) => if m.id in selected then CalculateProfit(m.totalSavings, rate) else 0
  }

  /**
   * The total shown before posting: the chosen members' profits summed over
   * the list; never negative at a non-negative rate when no savings are, and
   * then at least the profit of any one chosen member.
   */
  function SelectedProfitSum(ms: seq<Member>, selected: set<string>, rate: real): (r: int)
    ensures rate >= 0.0 && (forall m :: m in ms ==> m.totalSavings >= 0) ==>
              r >= 0 && forall m :: m in ms && m.id in selected ==> CalculateProfit(m.totalSavings, rate) <= r
  {
    assert rate >= 0.0 && (forall m :: m in ms ==> m.totalSavings >= 0) ==>
             forall m :: m in ms ==> ProfitOf(selected, rate)(m) <= Seqs.Sum(ms, ProfitOf(selected, rate)) by {
      if rate >= 0.0 && (forall m :: m in ms ==> m.totalSavings >= 0) {
        forall m | m in ms ensures ProfitOf(selected, rate)(m) >= 0 {
          ProfitSign(m.totalSavings, rate);
        }
        Seqs.SumAtLeastTerm(ms, ProfitOf(selected, rate));
      }
    }
    Seqs.Sum(ms, ProfitOf(selected, rate))
  }

  /** The running total of the screen, one member at a time. */
  method TotalDistributedProfit(ms: seq<Member>, selected: set<string>, rate: real) returns (total: int)
    ensures total == SelectedProfitSum(ms, selected, rate)
  {
    total := 0;
    var i := 0;
    while i < |ms|
      invariant 0 <= i <= |ms|
      invariant total == SelectedProfitSum(ms[..i], selected, rate)
    {
      var m := ms[i];
      if m.id in selected {
        total := total + CalculateProfit(m.totalSavings, rate);
      }
      assert ms[..i + 1][..i] == ms[..i];
      i := i + 1;
    }
    assert ms[..i] == ms;
  }

  // ---------------------------------------------------------------------
  // Posting

  /**
   * The remark on a distribution: "yearly profit (<rate>%)", the rate as the
   * screen prints it; it includes the rate and ends with the percent sign
   * and the closing parenthesis.
   */
  function DistributionRemark(rateLabel: string): (r: string)
    ensures Contains(r, rateLabel)
    ensures |r| >= 2 && r[|r| - 2..] == "%)"
  {
    var r := "বার্ষিক মুনাফা (" + rateLabel + "%)";
    assert OccursAt(r, rateLabel, |"বার্ষিক মুনাফা ("|);
    r
  }

  /** The deposit posted for one chosen member. */
  function DistributionTx(m: Member, rate: real, date: string, stamp: string, rateLabel: string): (t: Transaction)
    ensures t.memberId == m.id && t.memberName == m.name && t.date == date
    ensures t.kind == Savings && t.amount == CalculateProfit(m.totalSavings, rate)
    ensures t.id == "DIST-" + stamp + "-" + m.id && t.remarks == Some(DistributionRemark(rateLabel))
  {
    Transaction("DIST-" + stamp + "-" + m.id, m.id, m.name, date,
                CalculateProfit(m.totalSavings, rate), Savings, Some(DistributionRemark(rateLabel)))
  }

  /** The deposit posted for one member: its profit if chosen, nothing otherwise. */
  function Posting(m: Member, selected: set<string>, rate: real, date: string,
                   stamp: string, rateLabel: string): (r: seq<Transaction>)
    ensures m.id in selected ==> r == [DistributionTx(m, rate, date, stamp, rateLabel)]
    ensures m.id !in selected ==> r == []
  {
    if m.id in selected then [DistributionTx(m, rate, date, stamp, rateLabel)] else []
  }

  /**
   * The deposits posted for a member list, one per chosen member, in list
   * order: never more than there are members, each a savings deposit dated
   * on the distribution date for a chosen member of the list.
   */
  function DistributionTxs(ms: seq<Member>, selected: set<string>, rate: real, date: string,
                           stamp: string, rateLabel: string): (r: seq<Transaction>)
    ensures |r| <= |ms|
    ensures forall t :: t in r ==> t.kind == Savings && t.date == date && t.memberId in selected
                                    && exists m :: m in ms && m.id == t.memberId
  {
    if ms == [] then []
    else
      DistributionTxs(ms[..|ms| - 1], selected, rate, date, stamp, rateLabel)
        + Posting(ms[|ms| - 1], selected, rate, date, stamp, rateLabel)
  }

  /**
   * What is posted is what was shown: one savings deposit per chosen member
   * of the list, dated on the distribution date, whose amounts sum to the
   * total shown.
   */
  lemma {:induction false} PostedMatchesShown(ms: seq<Member>, selected: set<string>, rate: real, date: string,
                                              stamp: string, rateLabel: string)
    ensures var txs := DistributionTxs(ms, selected, rate, date, stamp, rateLabel);
            && Seqs.Sum(txs, (t: Transaction) => t.amount) == SelectedProfitSum(ms, selected, rate)
            && |txs| == |Seqs.Filter(ms, (m: Member) => m.id in selected)|
            && (forall t :: t in txs ==> t.kind == Savings && t.date == date && t.memberId in selected)
  {
    if ms != [] {
      var front, m := ms[..|ms| - 1], ms[|ms| - 1];
      PostedMatchesShown(front, selected, rate, date, stamp, rateLabel);
      var txs0 := DistributionTxs(front, selected, rate, date, stamp, rateLabel);
      var tail := if m.id in selected then [DistributionTx(m, rate, date, stamp, rateLabel)] else [];
      Seqs.SumAppend(txs0, tail, (t: Transaction) => t.amount);
      if tail != [] {
        assert tail[..0] == [];
      }
    }
  }

  /** Member `j` after distribution of the first `k` members' profits. */
  function Credited(ms: seq<Member>, selected: set<string>, rate: real, k: nat, j: nat): Member
    requires j < |ms|
  {
    if j < k && ms[j].id in selected
    then Db.WithBalance(ms[j], Balances(ms[j].totalSavings + CalculateProfit(ms[j].totalSavings, rate), ms[j].totalLoan))
    else ms[j]
  }

  /** Logging a transaction for member `k` of a list with unique ids touches member `k` only. */
  lemma PostUnique(r0: seq<Member>, ms: seq<Member>, k: nat, tx: Transaction)
    requires Db.UniqueIds(ms) && k < |ms| && |r0| == |ms| && tx.memberId == ms[k].id
    requires forall j :: 0 <= j < |ms| ==> r0[j].id == ms[j].id
    ensures var r := Db.Post(r0, tx);
            |r| == |ms|
            && r[k] == Db.WithBalance(r0[k], Step(Db.BalanceOf(r0[k]), tx))
            && forall j :: 0 <= j < |ms| && j != k ==> r[j] == r0[j]
  {
    assert Db.IsFirst(r0, k, tx.memberId);
    forall j | 0 <= j < |ms| && j != k ensures !Db.IsFirst(r0, j, tx.memberId) {
      if j < k {
        assert r0[j].id == ms[j].id != ms[k].id;
      } else {
        assert r0[k].id == tx.memberId;
      }
    }
  }

  /**
   * The member list after posting the distribution of its own snapshot,
   * when ids are unique: the first `k` members, if chosen, have gained their
   * profit in savings; everybody else is as before.
   */
  lemma {:induction false} DistributionPrefixEffect(ms: seq<Member>, selected: set<string>, rate: real, date: string,
                                                    stamp: string, rateLabel: string, k: nat)
    requires Db.UniqueIds(ms) && k <= |ms|
    ensures var r := Db.Replay(ms, DistributionTxs(ms[..k], selected, rate, date, stamp, rateLabel));
            |r| == |ms| && forall j :: 0 <= j < |ms| ==> r[j] == Credited(ms, selected, rate, k, j)
  {
    if k == 0 {
      assert DistributionTxs(ms[..k], selected, rate, date, stamp, rateLabel) == [];
    } else {
      DistributionPrefixEffect(ms, selected, rate, date, stamp, rateLabel, k - 1);
      ReplayPrefix(ms, selected, rate, date, stamp, rateLabel, k);
      CreditStep(Db.Replay(ms, DistributionTxs(ms[..k - 1], selected, rate, date, stamp, rateLabel)),
                 ms, selected, rate, date, stamp, rateLabel, k);
    }
  }

  /** Extending the prefix by member `k - 1` adds its deposit, if chosen, at the end. */
  lemma DistributionTxsSnoc(ms: seq<Member>, selected: set<string>, rate: real, date: string,
                            stamp: string, rateLabel: string, k: nat)
    requires 0 < k <= |ms|
    ensures DistributionTxs(ms[..k], selected, rate, date, stamp, rateLabel)
            == DistributionTxs(ms[..k - 1], selected, rate, date, stamp, rateLabel)
               + Posting(ms[k - 1], selected, rate, date, stamp, rateLabel)
  {
    assert ms[..k][..k - 1] == ms[..k - 1];
  }

  /** Replaying one more member's deposit is replaying it on top of the shorter replay. */
  lemma ReplayPrefix(ms: seq<Member>, selected: set<string>, rate: real, date: string,
                     stamp: string, rateLabel: string, k: nat)
    requires 0 < k <= |ms|
    ensures Db.Replay(ms, DistributionTxs(ms[..k], selected, rate, date, stamp, rateLabel))
            == Db.Replay(Db.Replay(ms, DistributionTxs(ms[..k - 1], selected, rate, date, stamp, rateLabel)),
                         Posting(ms[k - 1], selected, rate, date, stamp, rateLabel))
  {
    DistributionTxsSnoc(ms, selected, rate, date, stamp, rateLabel, k);
    Db.ReplayAppend(ms, DistributionTxs(ms[..k - 1], selected, rate, date, stamp, rateLabel),
                    Posting(ms[k - 1], selected, rate, date, stamp, rateLabel));
  }

  /** Posting member `k - 1`'s deposit credits that member and nobody else. */
  lemma CreditStep(r0: seq<Member>, ms: seq<Member>, selected: set<string>, rate: real, date: string,
                   stamp: string, rateLabel: string, k: nat)
    requires Db.UniqueIds(ms) && 0 < k <= |ms| && |r0| == |ms|
    requires forall j :: 0 <= j < |ms| ==> r0[j] == Credited(ms, selected, rate, k - 1, j)
    ensures var r := Db.Replay(r0, Posting(ms[k - 1], selected, rate, date, stamp, rateLabel));
            |r| == |ms| && forall j :: 0 <= j < |ms| ==> r[j] == Credited(ms, selected, rate, k, j)
  {
    var m := ms[k - 1];
    if m.id in selected {
      var t := DistributionTx(m, rate, date, stamp, rateLabel);
      Db.ReplayOne(r0, t);
      PostUnique(r0, ms, k - 1, t);
      assert r0[k - 1] == m;
      var r := Db.Post(r0, t);
      forall j | 0 <= j < |ms| ensures r[j] == Credited(ms, selected, rate, k, j) {
        if j != k - 1 {
          assert r[j] == r0[j];
        }
      }
    } else {
      assert Posting(m, selected, rate, date, stamp, rateLabel) == [];
    }
  }

  /** One turn of the distribution loop: a chosen member gets its profit deposit posted. */
  method PostProfit(store: Db.Store, m: Member, selected: set<string>, rate: real, date: string,
                    stamp: string, rateLabel: string)
    modifies store
    ensures var posted := Posting(m, selected, rate, date, stamp, rateLabel);
            store.GetTransactions() == old(store.GetTransactions()) + posted
            && store.GetMembers() == Db.Replay(old(store.GetMembers()), posted)
    ensures store.users == old(store.users)
  {
    if m.id in selected {
      var p := CalculateProfit(m.totalSavings, rate);
      var tx := Transaction("DIST-" + stamp + "-" + m.id, m.id, m.name, date, p, Savings,
                            Some(DistributionRemark(rateLabel)));
      ghost var ms := store.GetMembers();
      store.AddTransaction(tx);
      assert [] + [tx] == [tx];
      Db.ReplayAppendOne(ms, [], tx);
    } else {
      assert store.GetTransactions() + [] == store.GetTransactions();
    }
  }

  /** The distribution loop's step, stated against the log and the replay so far. */
  method DistributeNext(store: Db.Store, ghost txs0: seq<Transaction>, ghost ms0: seq<Member>,
                        ghost posted: seq<Transaction>, m: Member, selected: set<string>, rate: real,
                        date: string, stamp: string, rateLabel: string)
    modifies store
    requires store.GetTransactions() == txs0 + posted && store.GetMembers() == Db.Replay(ms0, posted)
    ensures var step := Posting(m, selected, rate, date, stamp, rateLabel);
            store.GetTransactions() == txs0 + (posted + step)
            && store.GetMembers() == Db.Replay(ms0, posted + step)
    ensures store.users == old(store.users)
  {
    ghost var step := Posting(m, selected, rate, date, stamp, rateLabel);
    PostProfit(store, m, selected, rate, date, stamp, rateLabel);
    Db.ReplayAppend(ms0, posted, step);
    assert txs0 + posted + step == txs0 + (posted + step);
  }

  /** The outcome of pressing "distribute". */
  datatype Outcome = NothingSelected | Declined | Distributed

  /**
   * Pressing "distribute": nothing happens without a chosen member or when
   * the confirmation is declined; otherwise every member of the snapshot
   * taken from the store that is chosen gets one profit deposit posted
   * through the store, in list order.
   */
  method HandleDistribute(store: Db.Store, selected: set<string>, parsedRate: Option<real>, date: string,
                          stamp: string, rateLabel: string, confirmed: bool) returns (outcome: Outcome)
    modifies store
    ensures selected == {} ==> outcome == NothingSelected
    ensures selected != {} && !confirmed ==> outcome == Declined
    ensures outcome == Distributed <==> selected != {} && confirmed
    ensures outcome != Distributed ==> store.transactions == old(store.transactions) && store.members == old(store.members)
    ensures outcome == Distributed ==>
              var txs := DistributionTxs(old(store.GetMembers()), selected, EffectiveRate(parsedRate), date, stamp, rateLabel);
              store.GetTransactions() == old(store.GetTransactions()) + txs
              && store.GetMembers() == Db.Replay(old(store.GetMembers()), txs)
    ensures store.users == old(store.users)
  {
    if |selected| == 0 {
      return NothingSelected;
    }
    if !confirmed {
      return Declined;
    }
    var rate := EffectiveRate(parsedRate);
    var members := store.GetMembers();
    ghost var txs0 := store.GetTransactions();
    var i := 0;
    ghost var posted: seq<Transaction> := [];
    while i < |members|
      invariant 0 <= i <= |members|
      invariant posted == DistributionTxs(members[..i], selected, rate, date, stamp, rateLabel)
      invariant store.GetTransactions() == txs0 + posted
      invariant store.GetMembers() == Db.Replay(members, posted)
      invariant store.users == old(store.users)
    {
      DistributionTxsSnoc(members, selected, rate, date, stamp, rateLabel, i + 1);
      DistributeNext(store, txs0, members, posted, members[i], selected, rate, date, stamp, rateLabel);
      posted := posted + Posting(members[i], selected, rate, date, stamp, rateLabel);
      i := i + 1;
    }
    assert members[..i] == members;
    outcome := Distributed;
  }

  /**
   * With unique ids, a confirmed distribution leaves every chosen member's
   * savings raised by exactly its profit and every other balance and field
   * as it was.
   */
  lemma DistributionEffect(ms: seq<Member>, selected: set<string>, rate: real, date: string,
                           stamp: string, rateLabel: string)
    requires Db.UniqueIds(ms)
    ensures var r := Db.Replay(ms, DistributionTxs(ms, selected, rate, date, stamp, rateLabel));
            |r| == |ms|
            && forall j :: 0 <= j < |ms| ==>
                 r[j].id == ms[j].id && r[j].name == ms[j].name && r[j].totalLoan == ms[j].totalLoan
                 && r[j].totalSavings == ms[j].totalSavings + ProfitOf(selected, rate)(ms[j])
  {
    DistributionPrefixEffect(ms, selected, rate, date, stamp, rateLabel, |ms|);
    assert ms[..|ms|] == ms;
    var r := Db.Replay(ms, DistributionTxs(ms, selected, rate, date, stamp, rateLabel));
    forall j | 0 <= j < |ms|
      ensures r[j].id == ms[j].id && r[j].name == ms[j].name && r[j].totalLoan == ms[j].totalLoan
      ensures r[j].totalSavings == ms[j].totalSavings + ProfitOf(selected, rate)(ms[j])
    {
      assert r[j] == Credited(ms, selected, rate, |ms|, j);
    }
  }
}
