/**
 * The member list screen in its three variants (everyone, members behind
 * on savings, members with a loan), its search, the dues it shows, and the
 * admin-only delete. The current month is a parameter.
 */
module MemberList {
  import opened Types
  import opened Balance
  import opened Text
  import Seqs
  import Db

  /** Which list the screen shows. */
  datatype ListKind = All | SavingsDue | LoanDue

  /** The savings every member should have reached by now: 100 per month of the year so far. */
  function TargetSavings(currentMonth: nat): (r: int)
    requires 1 <= currentMonth <= 12
    ensures 100 <= r <= 1200 && r % 100 == 0 && r / 100 == currentMonth
  {
    currentMonth * 100
  }

  function BelowTarget(target: int): Member -> bool {
    (m: Member) => m.totalSavings < target
  }

  /** The search condition: the name, the id or the phone number includes the term. */
  function MatchesSearch(term: string): Member -> bool {
    (m: Member) => Contains(m.name, term) || Contains(m.id, term) || Contains(m.phone, term)
  }

  /** The balance condition of a list variant; the full list has none. */
  function ByKind(kind: ListKind, target: int): Member -> bool {
    match kind
    case All => (m: Member) => true
    case SavingsDue => BelowTarget(target)
    case LoanDue => HasLoan
  }

  /**
   * The members shown: the variant's balance filter, then the search; a
   * member is shown exactly when it is stored, meets the variant's
   * condition and matches the search.
   */
  function FilteredMembers(ms: seq<Member>, kind: ListKind, target: int, term: string): (r: seq<Member>)
    ensures forall m :: m in r <==> m in ms && ByKind(kind, target)(m) && MatchesSearch(term)(m)
  {
    var list := match kind
      case All => ms
      case SavingsDue => Seqs.Filter(ms, BelowTarget(target))
      case LoanDue => Seqs.Filter(ms, HasLoan);
    Seqs.Filter(list, MatchesSearch(term))
  }

  /**
   * The list shown is the store's list filtered once by the variant's
   * balance condition and the search together: exactly the members meeting
   * both, in store order.
   */
  lemma FilteredMembersSpec(ms: seq<Member>, kind: ListKind, target: int, term: string)
    ensures FilteredMembers(ms, kind, target, term) == Seqs.Filter(ms, Seqs.Both(ByKind(kind, target), MatchesSearch(term)))
    ensures forall m :: m in FilteredMembers(ms, kind, target, term) <==>
              m in ms && ByKind(kind, target)(m)
              && (Contains(m.name, term) || Contains(m.id, term) || Contains(m.phone, term))
    ensures Seqs.IsSublist(FilteredMembers(ms, kind, target, term), ms)
  {
    match kind {
    case All =>
      Seqs.FilterAll(ms, ByKind(All, target));
      Seqs.FilterFilter(ms, ByKind(All, target), MatchesSearch(term));
    case SavingsDue =>
      Seqs.FilterFilter(ms, BelowTarget(target), MatchesSearch(term));
    case LoanDue =>
      Seqs.FilterFilter(ms, HasLoan, MatchesSearch(term));
    }
    Seqs.FilterSublist(ms, Seqs.Both(ByKind(kind, target), MatchesSearch(term)));
  }

  /** The full list with an empty search shows every member, in order. */
  lemma EmptySearchShowsAll(ms: seq<Member>, target: int)
    ensures FilteredMembers(ms, All, target, "") == ms
  {
    forall m | m in ms ensures MatchesSearch("")(m) {
      ContainsEmpty(m.name);
    }
    Seqs.FilterAll(ms, MatchesSearch(""));
  }

  /** `Math.max(0, target - totalSavings)`: the savings still owed this year. */
  function SavingsDueAmount(target: int, m: Member): (r: int)
    ensures r >= 0 && r >= target - m.totalSavings
    ensures r == 0 || r == target - m.totalSavings
  {
    if target - m.totalSavings > 0 then target - m.totalSavings else 0
  }

  /** Every member listed as behind on savings owes a positive amount; every one listed with a loan, a positive due. */
  lemma ListedDuesPositive(ms: seq<Member>, target: int, term: string)
    ensures forall m :: m in FilteredMembers(ms, SavingsDue, target, term) ==> SavingsDueAmount(target, m) > 0
    ensures forall m :: m in FilteredMembers(ms, LoanDue, target, term) ==> LoanDueAmount(m) > 0.0
  {
    FilteredMembersSpec(ms, SavingsDue, target, term);
    FilteredMembersSpec(ms, LoanDue, target, term);
  }

  /** The screen's own copy of the member list, refreshed from the store after a delete. */
  class Screen {
    var members: seq<Member>

    constructor(store: Db.Store)
      ensures members == store.GetMembers()
    {
      members := store.GetMembers();
    }

    /**
     * Deleting a member: refused for a non-admin, dropped when the
     * confirmation is declined; otherwise the store deletes every member
     * with the id and the screen shows the store's new list.
     */
    method HandleDelete(store: Db.Store, id: string, isAdmin: bool, confirmed: bool)
      modifies this, store
      ensures !isAdmin || !confirmed ==> members == old(members) && store.members == old(store.members)
      ensures isAdmin && confirmed ==>
                store.members == Some(Db.RemoveById(old(store.GetMembers()), id))
                && members == Db.RemoveById(old(store.GetMembers()), id)
      ensures store.users == old(store.users) && store.transactions == old(store.transactions)
    {
      if !isAdmin {
        return;
      }
      if confirmed {
        store.DeleteMember(id);
        members := store.GetMembers();
      }
    }
  }
}
