// UserRepository: users are not BaseEntity rows, so there is no soft-delete
// filter and no save-time stamping; the store hands out identities.

module UserRepository {
  import opened Wrappers
  import opened Text
  import opened Entities

  predicate UniqueUserIds(users: seq<User>)
  {
    forall i, j :: 0 <= i < j < |users| ==> users[i].id != users[j].id
  }

  /** The Users table. */
  class UserStore {
    var users: seq<User>
    var nextId: int

    ghost predicate Valid()
      reads this
    {
      UniqueUserIds(users) && forall i :: 0 <= i < |users| ==> users[i].id < nextId
    }

    constructor ()
      ensures Valid() && users == [] && nextId == 1
    {
      users := [];
      nextId := 1;
    }

    /** `AddAsync(user)`: the user is stored with the next identity, which the returned user carries. */
    method Add(u: User) returns (added: User)
      requires Valid()
      modifies this
      ensures Valid()
      ensures added == u.(id := old(nextId))
      ensures users == old(users) + [added] && nextId == old(nextId) + 1
    {
      added := u.(id := nextId);
      users := users + [added];
      nextId := nextId + 1;
    }

    /** `UpdateAsync(user)`: the stored user with that identity takes the new field values. */
    method Update(i: nat, u: User)
      requires Valid() && i < |users| && u.id == users[i].id
      modifies this
      ensures Valid() && nextId == old(nextId)
      ensures users == old(users)[i := u]
    {
      users := users[i := u];
    }
  }

  /** `GetByIdAsync(id)`. */
  function GetById(users: seq<User>, id: int): (r: Option<User>)
    ensures r.Some? ==> r.value in users && r.value.id == id
    ensures r.None? ==> forall k :: 0 <= k < |users| ==> users[k].id != id
  {
    if users == [] then None
    else if users[0].id == id then Some(users[0])
    else GetById(users[1..], id)
  }

  /** The comparison `u.Email.ToLower() == email.ToLower()`. */
  predicate SameEmail(stored: string, email: string)
  {
    ToLower(stored) == ToLower(email)
  }

  /** `GetByEmailAsync(email)`: the first user whose address equals `email` ignoring case. */
  function GetByEmail(users: seq<User>, email: string): (r: Option<User>)
    ensures r.Some? ==> r.value in users && SameEmail(r.value.email, email)
    ensures r.None? ==> forall k :: 0 <= k < |users| ==> !SameEmail(users[k].email, email)
  {
    if users == [] then None
    else if SameEmail(users[0].email, email) then Some(users[0])
    else GetByEmail(users[1..], email)
  }

  /** An address that differs only in letter case finds the same user. */
  lemma {:induction false} GetByEmailIgnoresCase(users: seq<User>, a: string, b: string)
    requires ToLower(a) == ToLower(b)
    ensures GetByEmail(users, a) == GetByEmail(users, b)
  {
    if users != [] {
      GetByEmailIgnoresCase(users[1..], a, b);
    }
  }

  /** A user stored under the lower-cased form of an address is found by that address in any case. */
  lemma {:induction false} StoredLowerIsFound(users: seq<User>, u: User, email: string)
    requires u.email == ToLower(email) && GetByEmail(users, email) == None
    ensures GetByEmail(users + [u], email) == Some(u)
  {
    LowerIdempotent(email);
    if users != [] {
      assert (users + [u])[1..] == users[1..] + [u];
      StoredLowerIsFound(users[1..], u, email);
    }
  }
}
