/**
 * The new-member form: the record it builds (with an automatic id when
 * none is entered) and the submit, which stores the member and then, for
 * a positive initial saving, also posts that saving as a deposit.
 */
module MemberForm {
  import opened Types
  import opened Balance
  import opened Text
  import Db

  /**
   * The form fields. `initialSavings` is the field read as a number, `None`
   * when it does not read as one; the admission fee is kept as typed.
   */
  datatype FormData = FormData(id: string, name: string, fatherName: string, phone: string, nid: string,
                               address: string, joinDate: string, initialSavings: Option<int>,
                               admissionFee: string)

  /** The entered id, or else the decimal form of 100 + the number of stored members + 1. */
  function NewMemberId(entered: string, memberCount: nat): (r: string)
    ensures entered != "" ==> r == entered
    ensures entered == "" ==> r != "" && IsDigits(r) && DigitsValue(r) == 101 + memberCount
  {
    if entered != "" then entered
    else
      NatToStringRoundTrip(101 + memberCount);
      NatToString(100 + memberCount + 1)
  }

  /** With no id entered, different member counts give different ids. */
  lemma AutoIdsDiffer(c1: nat, c2: nat)
    requires c1 != c2
    ensures NewMemberId("", c1) != NewMemberId("", c2)
  {
    NatToStringInjective(101 + c1, 101 + c2);
  }

  /** After the five seed members, the first automatic id is 106. */
  lemma AutoIdAfterSeed()
    ensures NewMemberId("", |Db.InitialMembers()|) == "106"
  {
    assert NatToString(106) == NatToString(10) + [DigitChar(6)];
    assert NatToString(10) == NatToString(1) + [DigitChar(0)];
  }

  /** `parseFloat(initialSavings) || 0`. */
  function OpeningSavings(f: FormData): int {
    f.initialSavings.GetOr(0)
  }

  /** The record stored for the form: the typed fields, the opening savings and no loan. */
  function NewMember(f: FormData, memberCount: nat): (m: Member)
    ensures m.id == NewMemberId(f.id, memberCount)
    ensures m.name == f.name && m.fatherName == f.fatherName && m.phone == f.phone
    ensures m.nid == f.nid && m.address == f.address && m.joinDate == f.joinDate
    ensures m.totalSavings == (if f.initialSavings.Some? then f.initialSavings.value else 0) && m.totalLoan == 0
  {
    Member(NewMemberId(f.id, memberCount), f.name, f.fatherName, f.phone, f.nid, f.address,
           f.joinDate, OpeningSavings(f), 0)
  }

  /** The admission fee reaches neither the member record nor any posted entry. */
  lemma AdmissionFeeIgnored(f: FormData, fee: string, memberCount: nat, stamp: string)
    ensures NewMember(f.(admissionFee := fee), memberCount) == NewMember(f, memberCount)
    ensures InitialTx(NewMember(f.(admissionFee := fee), memberCount), f.(admissionFee := fee), stamp)
            == InitialTx(NewMember(f, memberCount), f, stamp)
  {
  }

  /** The initial saving is posted only when it reads as a number above zero. */
  predicate PostsInitial(f: FormData) {
    f.initialSavings.Some? && f.initialSavings.value > 0
  }

  /** The deposit recording the initial saving. */
  function InitialTx(m: Member, f: FormData, stamp: string): (t: Transaction)
    ensures t.memberId == m.id && t.memberName == m.name && t.date == f.joinDate
    ensures t.kind == Savings && t.amount == OpeningSavings(f)
  {
    Transaction("INIT-" + stamp, m.id, m.name, f.joinDate, OpeningSavings(f), Savings, Some("প্রাথমিক সঞ্চয়"))
  }

  /**
   * Submitting: the member is stored first; then, for a positive initial
   * saving, a deposit of that saving is posted for the member's id.
   */
  method HandleSubmit(store: Db.Store, f: FormData, stamp: string) returns (m: Member)
    modifies store
    ensures m == NewMember(f, |old(store.GetMembers())|)
    ensures PostsInitial(f) ==>
              store.GetTransactions() == old(store.GetTransactions()) + [InitialTx(m, f, stamp)]
              && store.GetMembers() == Db.Post(old(store.GetMembers()) + [m], InitialTx(m, f, stamp))
    ensures !PostsInitial(f) ==>
              store.transactions == old(store.transactions)
              && store.GetMembers() == old(store.GetMembers()) + [m]
    ensures store.users == old(store.users)
  {
    m := NewMember(f, |store.GetMembers()|);
    store.AddMember(m);
    if f.initialSavings.Some? && f.initialSavings.value > 0 {
      store.AddTransaction(InitialTx(m, f, stamp));
    }
  }

  /**
   * A new member whose id no stored member has, joining with initial
   * savings `s > 0`, ends with `2s` in savings: the record already holds
   * `s`, and the posted deposit adds `s` again.
   */
  lemma InitialSavingsDoubled(ms: seq<Member>, f: FormData, stamp: string)
    requires PostsInitial(f)
    requires forall j :: 0 <= j < |ms| ==> ms[j].id != NewMemberId(f.id, |ms|)
    ensures var m := NewMember(f, |ms|);
            var r := Db.Post(ms + [m], InitialTx(m, f, stamp));
            |r| == |ms| + 1 && r[..|ms|] == ms
            && r[|ms|].totalSavings == 2 * f.initialSavings.value && r[|ms|].totalLoan == 0
  {
    var m := NewMember(f, |ms|);
    var all := ms + [m];
    assert Db.IsFirst(all, |ms|, m.id);
    var r := Db.Post(all, InitialTx(m, f, stamp));
    forall j | 0 <= j < |ms| ensures r[j] == ms[j] {
      assert !Db.IsFirst(all, j, m.id);
    }
  }

  /**
   * When the entered id is already taken, the initial deposit is credited
   * to the earlier member with that id and the new record keeps only `s`.
   */
  lemma InitialSavingsToEarlierMember(ms: seq<Member>, f: FormData, stamp: string, i: nat)
    requires PostsInitial(f) && i < |ms| && f.id != ""
    requires Db.IsFirst(ms, i, f.id)
    ensures var m := NewMember(f, |ms|);
            var r := Db.Post(ms + [m], InitialTx(m, f, stamp));
            |r| == |ms| + 1
            && r[i].totalSavings == ms[i].totalSavings + f.initialSavings.value
            && r[|ms|] == m && m.totalSavings == f.initialSavings.value
  {
    var m := NewMember(f, |ms|);
    var all := ms + [m];
    assert Db.IsFirst(all, i, m.id);
    assert !Db.IsFirst(all, |ms|, m.id) by {
      assert all[i].id == m.id;
    }
  }
}
