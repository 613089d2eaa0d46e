/** backend/src/user/user.service.ts: the lookups and the insert the auth handlers use, as
    functions on the `users` table (a map from id to row). */
module UserService {
  import opened Wrappers
  import opened Crypto
  import opened Schema

  /** The first user, in id order from `id` up to `bound`, whose username is `name`. */
  function ScanByName(users: map<int, User>, name: string, id: int, bound: int): (r: Option<User>)
    decreases bound - id
    ensures r.Some? ==> exists j :: id <= j < bound && j in users && users[j] == r.value && r.value.username == name
    ensures r.None? <==> forall j :: id <= j < bound && j in users ==> users[j].username != name
  {
    if id >= bound then None
    else if id in users && users[id].username == name then Some(users[id])
    else ScanByName(users, name, id + 1, bound)
  }

  /** `findUserByUsername`: `where username = name limit 1`. On a well-formed table it finds the
      user with that name exactly when there is one. */
  function FindUserByUsername(users: map<int, User>, nextUserId: int, name: string): (r: Option<User>)
    ensures r.Some? ==> r.value.username == name && r.value in users.Values
    ensures UsersKeyed(users, nextUserId) ==>
              (r.None? <==> forall id :: id in users ==> users[id].username != name)
    ensures UsersKeyed(users, nextUserId) && r.Some? ==> r.value.id in users && users[r.value.id] == r.value
  {
    ScanByName(users, name, 1, nextUserId)
  }

  /** With unique usernames the lookup returns the one user that bears the name. */
  lemma FindUserByUsernameUnique(users: map<int, User>, nextUserId: int, id: int)
    requires UsersKeyed(users, nextUserId) && UniqueUsernames(users)
    requires id in users
    ensures FindUserByUsername(users, nextUserId, users[id].username) == Some(users[id])
  {
    var r := FindUserByUsername(users, nextUserId, users[id].username);
    assert r.Some?;
    assert users[r.value.id].username == users[id].username;
  }

  /** `findUserById`: `where id = userId limit 1`. */
  function FindUserById(users: map<int, User>, userId: int): (r: Option<User>)
    ensures r.Some? <==> userId in users
    ensures r.Some? ==> r.value == users[userId]
  {
    if userId in users then Some(users[userId]) else None
  }

  /** `createUser(username, password, role?)`: a new row under the next identity value, holding
      the password's hash and the role, which defaults to USER. */
  function CreateUser(users: map<int, User>, nextUserId: int, name: string, password: string, role: Option<Role>)
    : (r: (map<int, User>, int))
    ensures r.0.Keys == users.Keys + {nextUserId} && r.1 == nextUserId + 1
    ensures forall id :: id in users && id != nextUserId ==> r.0[id] == users[id]
    ensures var u := r.0[nextUserId];
            u.id == nextUserId && u.username == name && VerifyHash(password, u.password)
            && u.role == role.GetOr(DefaultRole)
    ensures UsersKeyed(users, nextUserId) && UniqueUsernames(users)
            && (forall id :: id in users ==> users[id].username != name)
            ==> UsersKeyed(r.0, r.1) && UniqueUsernames(r.0)
  {
    (users[nextUserId := User(nextUserId, name, Hash(password), role.GetOr(DefaultRole))], nextUserId + 1)
  }
}
