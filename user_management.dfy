/**
 * The user-management screen: an administrator adds login users and deletes
 * them. Both handlers replace the stored user list with a new list and show
 * that same list; a delete is refused while only one user is left.
 */
module UserManagement {
  import opened Types
  import Seqs
  import Db

  /** The new-user form. */
  datatype NewUser = NewUser(name: string, username: string, role: Role, password: string)

  /** The form as it starts and as it is reset after every add. */
  const BlankForm: NewUser := NewUser("", "", RoleUser, "Samiti9999")

  /** `{ ...newUser, id }`: the form's fields under the given id. */
  function WithId(f: NewUser, id: string): (u: User)
    ensures u.id == id
    ensures u.name == f.name && u.username == f.username && u.role == f.role && u.password == f.password
  {
    User(id, f.username, f.name, f.role, f.password)
  }

  /** The filter condition `u => u.id !== id`. */
  function NotId(id: string): User -> bool {
    (u: User) => u.id != id
  }

  /** `users.filter(u => u.id !== id)`: every user with that id goes, the rest stay in order. */
  function RemoveUser(us: seq<User>, id: string): (r: seq<User>)
    ensures forall u :: u in r <==> u in us && u.id != id
    ensures Seqs.IsSublist(r, us)
  {
    Seqs.FilterSublist(us, NotId(id));
    Seqs.Filter(us, NotId(id))
  }

  /** No two users share an id. */
  predicate UniqueUserIds(us: seq<User>) {
    forall i, j :: 0 <= i < j < |us| ==> us[i].id != us[j].id
  }

  /** Removing by id keeps the ids of a list distinct. */
  lemma {:induction false} RemoveKeepsUnique(us: seq<User>, id: string)
    requires UniqueUserIds(us)
    ensures UniqueUserIds(RemoveUser(us, id))
  {
    if us != [] {
      var front, last := us[..|us| - 1], us[|us| - 1];
      FrontOfUnique(us);
      RemoveKeepsUnique(front, id);
      Seqs.FilterAppendOne(front, last, NotId(id));
      assert us == front + [last];
      var r0 := RemoveUser(front, id);
      if last.id != id {
        AddKeepsUnique(r0, last);
      }
    }
  }

  /** The users before the last of a list with distinct ids have distinct ids, none of them the last one's. */
  lemma FrontOfUnique(us: seq<User>)
    requires UniqueUserIds(us) && us != []
    ensures UniqueUserIds(us[..|us| - 1])
    ensures forall v :: v in us[..|us| - 1] ==> v.id != us[|us| - 1].id
  {
    assert forall k :: 0 <= k < |us| - 1 ==> us[..|us| - 1][k] == us[k];
  }

  /** Appending a user under a fresh id keeps the ids of a list distinct. */
  lemma AddKeepsUnique(us: seq<User>, u: User)
    requires UniqueUserIds(us) && forall v :: v in us ==> v.id != u.id
    ensures UniqueUserIds(us + [u])
  {
    var r := us + [u];
    forall i, j | 0 <= i < j < |r| ensures r[i].id != r[j].id {
      if j == |r| - 1 {
        assert r[i] in us;
      }
    }
  }

  /** With distinct ids and at least two users, a delete leaves at least one user. */
  lemma DeleteNeverEmpties(us: seq<User>, id: string)
    requires UniqueUserIds(us) && |us| >= 2
    ensures RemoveUser(us, id) != []
    ensures |RemoveUser(us, id)| >= |us| - 1
  {
    var keep := if us[0].id != id then us[0] else us[1];
    assert keep in RemoveUser(us, id);
    RemoveAtMostOne(us, id);
  }

  /** With distinct ids, removing by id takes out at most one user. */
  lemma {:induction false} RemoveAtMostOne(us: seq<User>, id: string)
    requires UniqueUserIds(us)
    ensures |RemoveUser(us, id)| >= |us| - 1
  {
    if us != [] {
      var front, last := us[..|us| - 1], us[|us| - 1];
      if last.id == id {
        forall u | u in front ensures NotId(id)(u) {
          var k :| 0 <= k < |front| && front[k] == u;
          assert us[k] == u;
        }
        Seqs.FilterAll(front, NotId(id));
        assert |RemoveUser(us, id)| == |front|;
      } else {
        RemoveAtMostOne(front, id);
      }
    }
  }

  /** Deleting the user just added, under a fresh id, gives back the list from before the add. */
  lemma AddThenDelete(us: seq<User>, f: NewUser, id: string)
    requires forall u :: u in us ==> u.id != id
    ensures RemoveUser(us + [WithId(f, id)], id) == us
  {
    Seqs.FilterAppendOne(us, WithId(f, id), NotId(id));
    Seqs.FilterAll(us, NotId(id));
  }

  /** The screen: the user list it shows and the new-user form. */
  class Screen {
    var users: seq<User>
    var form: NewUser

    /** The list and the store agree. */
    predicate Synced(store: Db.Store)
      reads this, store
    {
      store.GetUsers() == users
    }

    constructor(store: Db.Store)
      ensures users == store.GetUsers() && form == BlankForm
      ensures Synced(store)
    {
      users := store.GetUsers();
      form := BlankForm;
    }

    /**
     * Adding a user: the form's user, under the id `stamp`, goes at the end
     * of the list; the store and the screen get the new list, and the form
     * is reset.
     */
    method HandleAddUser(store: Db.Store, stamp: string)
      modifies this, store
      ensures users == old(users) + [WithId(old(form), stamp)]
      ensures store.users == Some(users)
      ensures Synced(store)
      ensures form == BlankForm
      ensures store.members == old(store.members) && store.transactions == old(store.transactions)
      ensures UniqueUserIds(old(users)) && (forall u :: u in old(users) ==> u.id != stamp) ==> UniqueUserIds(users)
    {
      if UniqueUserIds(users) && forall u :: u in users ==> u.id != stamp {
        AddKeepsUnique(users, WithId(form, stamp));
      }
      var updated := users + [WithId(form, stamp)];
      store.SaveUsers(updated);
      users := updated;
      form := BlankForm;
    }

    /**
     * Deleting a user: refused while the list holds one user or none;
     * dropped when the confirmation is declined; otherwise every user with
     * the id is removed from the list, and the store and the screen get the
     * result.
     */
    method HandleDeleteUser(store: Db.Store, id: string, confirmed: bool) returns (refused: bool)
      modifies this, store
      ensures refused <==> |old(users)| <= 1
      ensures refused || !confirmed ==> users == old(users) && store.users == old(store.users)
      ensures !refused && confirmed ==> users == RemoveUser(old(users), id) && store.users == Some(users)
      ensures old(Synced(store)) ==> Synced(store)
      ensures form == old(form)
      ensures store.members == old(store.members) && store.transactions == old(store.transactions)
      ensures UniqueUserIds(old(users)) ==> UniqueUserIds(users)
      ensures UniqueUserIds(old(users)) && old(users) != [] ==> users != []
    {
      if |users| <= 1 {
        return true;
      }
      refused := false;
      if confirmed {
        if UniqueUserIds(users) {
          RemoveKeepsUnique(users, id);
          DeleteNeverEmpties(users, id);
        }
        var updated := RemoveUser(users, id);
        store.SaveUsers(updated);
        users := updated;
      }
    }
  }
}
