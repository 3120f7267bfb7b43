/**
 * The ledger store: three collections kept in named storage slots, the
 * first-run seeding, member maintenance and the transaction log whose
 * every insert re-applies the balance rule to the first member with the
 * transaction's member id.
 */
module Db {
  import opened Types
  import opened Balance
  import Seqs

  // ---------------------------------------------------------------------
  // Seed data written by the first `init`

  /**
   * The three seed accounts: distinct ids and usernames, the first the only
   * administrator, all sharing one password.
   */
  function InitialUsers(): (r: seq<User>)
    ensures |r| == 3
    ensures forall i, j :: 0 <= i < j < |r| ==> r[i].id != r[j].id && r[i].username != r[j].username
    ensures forall i :: 0 <= i < |r| ==> (r[i].role == RoleAdmin <==> i == 0) && r[i].password == r[0].password
  {
    [ User("1", "Admin", "অ্যাডমিন", RoleAdmin, "Samiti9999"),
      User("2", "Roni", "আবু সুফিয়ান রনি", RoleUser, "Samiti9999"),
      User("3", "Tohid", "মেহেদী হাসান তৌহিদ", RoleUser, "Samiti9999") ]
  }

  /** The five seed members, `101` to `105`: distinct ids, balances never negative. */
  function InitialMembers(): (r: seq<Member>)
    ensures |r| == 5 && UniqueIds(r)
    ensures forall i :: 0 <= i < |r| ==> r[i].totalSavings >= 0 && r[i].totalLoan >= 0
  {
    [ Member("101", "আব্দুল করিম", "রহিম উল্লাহ", "01712345678", "1234567890", "স্বরুপনগর, চাপাইনবাবগঞ্জ", "2024-01-01", 5500, 6000),
      Member("102", "রহিম উদ্দিন", "জসিম উদ্দিন", "01822334455", "0987654321", "চাপাইনবাবগঞ্জ সদর", "2024-01-10", 8200, 0),
      Member("103", "মোঃ জামান", "করিম শেখ", "01911223344", "1122334455", "রামচন্দ্রপুর, চাপাইনবাবগঞ্জ", "2024-02-15", 3000, 4000),
      Member("104", "নূর আলম", "আব্দুস সাত্তার", "01700112233", "5544332211", "বারোঘরিয়া", "2024-03-01", 12000, 0),
      Member("105", "সাইফুল ইসলাম", "মজিবুর রহমান", "01512345678", "9988776655", "মহারাজপুর", "2024-03-05", 4500, 14000) ]
  }

  /** A storage slot is written only when it holds nothing yet. */
  function InitSlot<T>(slot: Option<seq<T>>, seed: seq<T>): (r: Option<seq<T>>)
    ensures r.Some?
    ensures slot.Some? ==> r == slot
    ensures slot.None? ==> r == Some(seed)
  {
    if slot.None? then Some(seed) else slot
  }

  /** Seeding a second time changes nothing. */
  lemma InitSlotIdempotent<T>(slot: Option<seq<T>>, seed: seq<T>)
    ensures InitSlot(InitSlot(slot, seed), seed) == InitSlot(slot, seed)
  {
  }

  // ---------------------------------------------------------------------
  // The balance rule applied to the member list

  function BalanceOf(m: Member): Balances {
    Balances(m.totalSavings, m.totalLoan)
  }

  /** `m` is the first member in `ms` whose id is `id`. */
  predicate IsFirst(ms: seq<Member>, j: nat, id: string)
    requires j < |ms|
  {
    ms[j].id == id && forall k :: 0 <= k < j ==> ms[k].id != id
  }

  /** No two members share an id. */
  predicate UniqueIds(ms: seq<Member>) {
    forall i, j :: 0 <= i < j < |ms| ==> ms[i].id != ms[j].id
  }

  /** `members.findIndex(m => m.id === id)`: the first matching index, or -1. */
  function FindIndex(ms: seq<Member>, id: string): (r: int)
    ensures -1 <= r < |ms|
    ensures r >= 0 ==> IsFirst(ms, r, id)
    ensures r == -1 <==> forall j :: 0 <= j < |ms| ==> ms[j].id != id
  {
    if ms == [] then -1
    else if ms[0].id == id then 0
    else
      var k := FindIndex(ms[1..], id);
      assert forall j :: 1 <= j < |ms| ==> ms[j] == ms[1..][j - 1];
      if k == -1 then -1 else k + 1
  }

  /** A member whose balances have been replaced by `b`. */
  function WithBalance(m: Member, b: Balances): (r: Member)
    ensures BalanceOf(r) == b
    ensures r.id == m.id && r.name == m.name && r.fatherName == m.fatherName && r.phone == m.phone
    ensures r.nid == m.nid && r.address == m.address && r.joinDate == m.joinDate
  {
    m.(totalSavings := b.savings, totalLoan := b.loan)
  }

  /**
   * The member list after the store logs `tx`: the first member whose id is
   * `tx.memberId` has the balance rule applied; nobody else changes.
   */
  function Post(ms: seq<Member>, tx: Transaction): (r: seq<Member>)
    ensures |r| == |ms|
    ensures FindIndex(ms, tx.memberId) == -1 ==> r == ms
  {
    var i := FindIndex(ms, tx.memberId);
    if i == -1 then ms else ms[i := WithBalance(ms[i], Step(BalanceOf(ms[i]), tx))]
  }

  /** Member `j` after the post: updated when it is the first with the id, untouched otherwise. */
  lemma PostAt(ms: seq<Member>, tx: Transaction, j: nat)
    requires j < |ms|
    ensures Post(ms, tx)[j]
            == if IsFirst(ms, j, tx.memberId) then WithBalance(ms[j], Step(BalanceOf(ms[j]), tx)) else ms[j]
  {
  }

  /**
   * The member list after logging every transaction of `log`, first to
   * last: as long as before, and unchanged by entries that name no member.
   */
  function Replay(ms: seq<Member>, log: seq<Transaction>): (r: seq<Member>)
    ensures |r| == |ms|
    ensures (forall i :: 0 <= i < |log| ==> FindIndex(ms, log[i].memberId) == -1) ==> r == ms
  {
    if log == [] then ms else Post(Replay(ms, log[..|log| - 1]), log[|log| - 1])
  }

  lemma ReplayAppendOne(ms: seq<Member>, log: seq<Transaction>, t: Transaction)
    ensures Replay(ms, log + [t]) == Post(Replay(ms, log), t)
  {
    assert (log + [t])[..|log|] == log;
  }

  lemma ReplayOne(ms: seq<Member>, t: Transaction)
    ensures Replay(ms, [t]) == Post(ms, t)
  {
    assert [t][..0] == [];
  }

  /** Logging `a` and then `b` is logging `a + b`. */
  lemma {:induction false} ReplayAppend(ms: seq<Member>, a: seq<Transaction>, b: seq<Transaction>)
    ensures Replay(ms, a + b) == Replay(Replay(ms, a), b)
    decreases |b|
  {
    if b == [] {
      assert a + b == a;
    } else {
      var b', t := b[..|b| - 1], b[|b| - 1];
      assert a + b == (a + b') + [t] && b == b' + [t];
      ReplayAppendOne(ms, a + b', t);
      ReplayAppendOne(Replay(ms, a), b', t);
      ReplayAppend(ms, a, b');
    }
  }

  /** The filter condition `t => t.memberId === id`. */
  function HasMemberId(id: string): Transaction -> bool {
    (t: Transaction) => t.memberId == id
  }

  /** `transactions.filter(t => t.memberId === id)`. */
  function MemberTxs(log: seq<Transaction>, id: string): (r: seq<Transaction>)
    ensures forall t :: t in r <==> t in log && t.memberId == id
  {
    Seqs.Filter(log, HasMemberId(id))
  }

  lemma MemberTxsAppendOne(log: seq<Transaction>, t: Transaction, id: string)
    ensures MemberTxs(log + [t], id) == MemberTxs(log, id) + (if t.memberId == id then [t] else [])
  {
    assert (log + [t])[..|log|] == log;
  }

  lemma MemberTxsAppend(a: seq<Transaction>, b: seq<Transaction>, id: string)
    ensures MemberTxs(a + b, id) == MemberTxs(a, id) + MemberTxs(b, id)
  {
    Seqs.FilterAppend(a, b, HasMemberId(id));
  }

  /** Logging never reorders, adds or removes members, or changes their ids. */
  lemma {:induction false} ReplayKeepsIds(ms: seq<Member>, log: seq<Transaction>)
    ensures |Replay(ms, log)| == |ms|
    ensures forall j :: 0 <= j < |ms| ==> Replay(ms, log)[j].id == ms[j].id
  {
    if log != [] {
      ReplayKeepsIds(ms, log[..|log| - 1]);
    }
  }

  /**
   * The cached balances of a member are its starting balances with the
   * rule folded over its own transactions, in log order; a member shadowed
   * by an earlier one with the same id is never touched.
   */
  lemma {:induction false} ReplayMember(ms: seq<Member>, log: seq<Transaction>, i: nat)
    requires i < |ms|
    ensures |Replay(ms, log)| == |ms|
    ensures Replay(ms, log)[i] ==
      if IsFirst(ms, i, ms[i].id) then WithBalance(ms[i], Fold(BalanceOf(ms[i]), MemberTxs(log, ms[i].id)))
      else ms[i]
  {
    ReplayKeepsIds(ms, log);
    if log == [] {
      assert MemberTxs(log, ms[i].id) == [];
    } else {
      var front, t := log[..|log| - 1], log[|log| - 1];
      var id := ms[i].id;
      ReplayMember(ms, front, i);
      ReplayKeepsIds(ms, front);
      var r := Replay(ms, front);
      PostAt(r, t, i);
      assert IsFirst(r, i, t.memberId) <==> IsFirst(ms, i, t.memberId);
      assert MemberTxs(log, id) == MemberTxs(front, id) + (if t.memberId == id then [t] else []);
      if t.memberId == id {
        FoldAppendOne(BalanceOf(ms[i]), MemberTxs(front, id), t);
      }
    }
  }

  /**
   * The cache invariant: starting from a snapshot, a member's savings are
   * the snapshot savings plus its deposits minus its withdrawals, and its
   * loan is the snapshot loan plus distributions minus collections.
   */
  lemma CacheMatchesLog(ms: seq<Member>, log: seq<Transaction>, i: nat)
    requires i < |ms| && IsFirst(ms, i, ms[i].id)
    ensures |Replay(ms, log)| == |ms|
    ensures Replay(ms, log)[i].totalSavings ==
      ms[i].totalSavings + SumKind(MemberTxs(log, ms[i].id), Savings) - SumKind(MemberTxs(log, ms[i].id), SavingsWithdrawal)
    ensures Replay(ms, log)[i].totalLoan ==
      ms[i].totalLoan + SumKind(MemberTxs(log, ms[i].id), LoanDistribution) - SumKind(MemberTxs(log, ms[i].id), LoanCollection)
  {
    ReplayMember(ms, log, i);
    FoldIsNetSums(BalanceOf(ms[i]), MemberTxs(log, ms[i].id));
  }

  /**
   * A loan collection of 1000 for seed member 101 (5500 saved, 6000 owed)
   * leaves savings at 5500 and the loan at 5000.
   */
  lemma SeedLoanCollectionExample()
    ensures var tx := Transaction("TX-1", "101", "আব্দুল করিম", "2025-01-01", 1000, LoanCollection, Some(""));
            var r := Post(InitialMembers(), tx);
            r[0].totalSavings == 5500 && r[0].totalLoan == 5000 && r[1..] == InitialMembers()[1..]
  {
    var tx := Transaction("TX-1", "101", "আব্দুল করিম", "2025-01-01", 1000, LoanCollection, Some(""));
    assert IsFirst(InitialMembers(), 0, "101");
    assert forall j :: 1 <= j < 5 ==> !IsFirst(InitialMembers(), j, "101");
  }

  /**
   * The seed members carry balances with no transaction behind them: right
   * after seeding the log is empty, yet member 101 holds 5500 in savings.
   */
  lemma SeedBalancesUnbacked()
    ensures InitialMembers()[0].totalSavings != Fold(Zero, MemberTxs([], "101")).savings
  {
    assert MemberTxs([], "101") == [];
  }

  // ---------------------------------------------------------------------
  // Whole-list member maintenance

  /** `members.map(m => m.id === updated.id ? updated : m)`. */
  function ReplaceById(ms: seq<Member>, updated: Member): (r: seq<Member>)
    ensures |r| == |ms|
    ensures forall j :: 0 <= j < |ms| ==> r[j] == if ms[j].id == updated.id then updated else ms[j]
  {
    seq(|ms|, j requires 0 <= j < |ms| => if ms[j].id == updated.id then updated else ms[j])
  }

  /** `members.filter(m => m.id !== id)`. */
  function RemoveById(ms: seq<Member>, id: string): (r: seq<Member>)
    ensures forall m :: m in r <==> m in ms && m.id != id
    ensures Seqs.IsSublist(r, ms)
  {
    Seqs.FilterSublist(ms, (m: Member) => m.id != id);
    Seqs.Filter(ms, (m: Member) => m.id != id)
  }

  // ---------------------------------------------------------------------
  // The store

  /**
   * Browser storage for the three collections. A slot is `None` until
   * something is written to it; reading an absent slot gives an empty list.
   */
  class Store {
    var users: Option<seq<User>>
    var members: Option<seq<Member>>
    var transactions: Option<seq<Transaction>>

    /** Storage as a first visit finds it: every slot empty. */
    constructor ()
      ensures users == None && members == None && transactions == None
    {
      users, members, transactions := None, None, None;
    }

    function GetUsers(): seq<User>
      reads this
    {
      users.GetOr([])
    }

    function GetMembers(): seq<Member>
      reads this
    {
      members.GetOr([])
    }

    function GetTransactions(): seq<Transaction>
      reads this
    {
      transactions.GetOr([])
    }

    /** Seeds each collection whose slot is still empty and leaves the others as they are. */
    method Init()
      modifies this
      ensures users == InitSlot(old(users), InitialUsers())
      ensures members == InitSlot(old(members), InitialMembers())
      ensures transactions == InitSlot(old(transactions), [])
    {
      if users.None? {
        users := Some(InitialUsers());
      }
      if members.None? {
        members := Some(InitialMembers());
      }
      if transactions.None? {
        transactions := Some([]);
      }
    }

    method SaveUsers(us: seq<User>)
      modifies this
      ensures users == Some(us)
      ensures members == old(members) && transactions == old(transactions)
    {
      users := Some(us);
    }

    method SaveMembers(ms: seq<Member>)
      modifies this
      ensures members == Some(ms)
      ensures users == old(users) && transactions == old(transactions)
    {
      members := Some(ms);
    }

    method SaveTransactions(txs: seq<Transaction>)
      modifies this
      ensures transactions == Some(txs)
      ensures users == old(users) && members == old(members)
    {
      transactions := Some(txs);
    }

    /** Appends a member; no id is checked for uniqueness. */
    method AddMember(m: Member)
      modifies this
      ensures members == Some(old(GetMembers()) + [m])
      ensures users == old(users) && transactions == old(transactions)
    {
      var ms := GetMembers();
      ms := ms + [m];
      SaveMembers(ms);
    }

    /** Replaces every member with the same id, keeping length and order. */
    method UpdateMember(updated: Member)
      modifies this
      ensures members == Some(ReplaceById(old(GetMembers()), updated))
      ensures users == old(users) && transactions == old(transactions)
    {
      var ms := ReplaceById(GetMembers(), updated);
      SaveMembers(ms);
    }

    /** Removes every member with this id, keeping the others in order. */
    method DeleteMember(id: string)
      modifies this
      ensures members == Some(RemoveById(old(GetMembers()), id))
      ensures users == old(users) && transactions == old(transactions)
    {
      var ms := RemoveById(GetMembers(), id);
      SaveMembers(ms);
    }

    /**
     * Appends `tx` to the log, then applies the balance switch to the first
     * member whose id is `tx.memberId`. The member slot is written only when
     * such a member exists.
     */
    method AddTransaction(tx: Transaction)
      modifies this
      ensures transactions == Some(old(GetTransactions()) + [tx])
      ensures members == if FindIndex(old(GetMembers()), tx.memberId) == -1 then old(members)
                         else Some(Post(old(GetMembers()), tx))
      ensures GetMembers() == Post(old(GetMembers()), tx)
      ensures users == old(users)
    {
      var txs := GetTransactions();
      txs := txs + [tx];
      SaveTransactions(txs);

      var ms := GetMembers();
      var i := FindIndex(ms, tx.memberId);
      if i != -1 {
        var m := ms[i];
        match tx.kind {
          case Savings => m := m.(totalSavings := m.totalSavings + tx.amount);
          case SavingsWithdrawal => m := m.(totalSavings := m.totalSavings - tx.amount);
          case LoanDistribution => m := m.(totalLoan := m.totalLoan + tx.amount);
          case LoanCollection => m := m.(totalLoan := m.totalLoan - tx.amount);
          case _ =>
        }
        assert m == WithBalance(ms[i], Step(BalanceOf(ms[i]), tx));
        ms := ms[i := m];
        SaveMembers(ms);
      }
    }
  }

  /** Initialising twice leaves storage exactly as initialising once. */
  method InitTwice(s: Store)
    modifies s
    ensures s.users == InitSlot(old(s.users), InitialUsers())
    ensures s.members == InitSlot(old(s.members), InitialMembers())
    ensures s.transactions == InitSlot(old(s.transactions), [])
  {
    s.Init();
    s.Init();
  }

  /** One more transaction through the store keeps the log and the members at the replay. */
  method AddNext(s: Store, ghost txs0: seq<Transaction>, ghost ms0: seq<Member>, ghost done: seq<Transaction>,
                 t: Transaction)
    modifies s
    requires s.GetTransactions() == txs0 + done && s.GetMembers() == Replay(ms0, done)
    ensures s.GetTransactions() == txs0 + (done + [t]) && s.GetMembers() == Replay(ms0, done + [t])
    ensures s.users == old(s.users)
  {
    s.AddTransaction(t);
    ReplayAppendOne(ms0, done, t);
    assert txs0 + done + [t] == txs0 + (done + [t]);
  }

  /**
   * Logging a whole list through the store, one `AddTransaction` at a time,
   * appends it to the log and leaves the member list at its replay.
   */
  method AddAll(s: Store, log: seq<Transaction>)
    modifies s
    ensures s.GetTransactions() == old(s.GetTransactions()) + log
    ensures s.GetMembers() == Replay(old(s.GetMembers()), log)
    ensures s.users == old(s.users)
  {
    ghost var txs0, ms0 := s.GetTransactions(), s.GetMembers();
    ghost var done: seq<Transaction> := [];
    var i := 0;
    while i < |log|
      invariant 0 <= i <= |log| && done == log[..i]
      invariant s.GetTransactions() == txs0 + done
      invariant s.GetMembers() == Replay(ms0, done)
      invariant s.users == old(s.users)
    {
      AddNext(s, txs0, ms0, done, log[i]);
      Seqs.TakeOneMore(log, i);
      done := done + [log[i]];
      i := i + 1;
    }
    assert log[..|log|] == log;
  }
}
