/**
 * The client's user list (frontend/src/features/users/userSlice.ts): it
 * starts empty and `addUser` appends.
 */
module UserSlice {

  /** A listed user, as the slice declares it. */
  datatype ListedUser = ListedUser(id: int, name: string, email: string, role: string, status: string, department: string)

  /** How often an id occurs in a list. */
  function CountId(users: seq<ListedUser>, id: int): nat {
    if users == [] then 0 else (if users[0].id == id then 1 else 0) + CountId(users[1..], id)
  }

  lemma {:induction false} CountIdAppend(users: seq<ListedUser>, u: ListedUser, id: int)
    ensures CountId(users + [u], id) == CountId(users, id) + (if u.id == id then 1 else 0)
    decreases |users|
  {
    if users == [] {
      assert users + [u] == [u];
    } else {
      assert (users + [u])[1..] == users[1..] + [u];
      CountIdAppend(users[1..], u, id);
    }
  }

  class UserList {
    var users: seq<ListedUser>

    constructor ()
      ensures users == []
    {
      users := [];
    }

    /** `state.users.push(action.payload)`: the payload goes last, the
        earlier users stay where they were, and nothing is deduplicated. */
    method AddUser(u: ListedUser)
      modifies this
      ensures users == old(users) + [u]
      ensures CountId(users, u.id) == CountId(old(users), u.id) + 1
    {
      AddUserKeepsDuplicates(users, u);
      users := users + [u];
    }
  }

  /** There is no deduplication: adding a user whose id is already listed
      lists that id once more. */
  lemma AddUserKeepsDuplicates(users: seq<ListedUser>, u: ListedUser)
    ensures CountId(users + [u], u.id) == CountId(users, u.id) + 1
  {
    CountIdAppend(users, u, u.id);
  }
}
