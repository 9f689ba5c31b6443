/**
 * Credentials: registration with a username-uniqueness guard, authentication
 * with one error for every failure, and the session gate. The salted hash and
 * its comparison are parameters (`hash(password, salt)`, `compare(password, hash)`).
 */
module Auth {
  import opened Wrappers
  import opened Seqs
  import opened OrderedMap
  import opened Schema
  import opened Storage

  const UsernameTaken := "Username already exists"
  const InvalidCredentials := "Invalid username or password"
  const Unauthorized := "Unauthorized"

  /** A user without the password field. */
  datatype UserView = UserView(id: int, username: string)

  function ViewOf(u: User): UserView {
    UserView(u.id, u.username)
  }

  /** What `isAuthenticated` does with a request. */
  datatype GateDecision = Next | Reject(status: int, message: string)

  /** `isAuthenticated`: the request passes iff the session's `userId` is truthy (present and not 0). */
  function IsAuthenticated(sessionUserId: Option<int>): (r: GateDecision)
    ensures r.Next? <==> sessionUserId.Some? && sessionUserId.value != 0
    ensures r.Reject? ==> r == Reject(401, Unauthorized)
  {
    if sessionUserId.Some? && sessionUserId.value != 0 then Next else Reject(401, Unauthorized)
  }

  /** Every id the store ever gives a user is truthy, so a session holding one passes the gate. */
  lemma StoredUsersPassGate(store: MemStorage, k: int)
    requires store.Valid() && k in store.users.entries
    ensures IsAuthenticated(Some(store.users.entries[k].id)) == Next
  {
    assert k in store.users.keys;
  }

  /** `authenticate(username, password)` against the users table. */
  function Authenticate(users: Table<User>, username: string, password: string,
                        compare: (string, string) -> bool): (r: Result<UserView, string>)
    ensures r.Err? ==> r.error == InvalidCredentials
    ensures r.Ok? <==> UserByUsername(users, username).Some?
                       && compare(password, UserByUsername(users, username).value.password)
    ensures r.Ok? ==> r.value == ViewOf(UserByUsername(users, username).value) && r.value.username == username
  {
    match UserByUsername(users, username)
    case None => Err(InvalidCredentials)
    case Some(user) => if compare(password, user.password) then Ok(ViewOf(user)) else Err(InvalidCredentials)
  }

  /** An unknown username and a wrong password are told apart by nothing in the result. */
  lemma SameErrorForUnknownUserAndWrongPassword(users: Table<User>, unknown: string, known: string,
                                                password: string, wrong: string, compare: (string, string) -> bool)
    requires UserByUsername(users, unknown).None?
    requires UserByUsername(users, known).Some? && !compare(wrong, UserByUsername(users, known).value.password)
    ensures Authenticate(users, unknown, password, compare) == Authenticate(users, known, wrong, compare)
  {
  }

  /** A user appended under a fresh key is the first match for a name nobody had. */
  lemma {:induction false} FirstWithUsernameAppend(us: seq<User>, user: User)
    requires FirstWithUsername(us, user.username).None?
    ensures FirstWithUsername(us + [user], user.username) == Some(user)
  {
    if us == [] {
      assert us + [user] == [user];
    } else {
      assert (us + [user])[1..] == us[1..] + [user];
      FirstWithUsernameAppend(us[1..], user);
    }
  }

  /** Storing a new user under a name nobody had makes that user the one found by that name. */
  lemma NewUserIsFound(users: Table<User>, k: int, username: string, hashed: string)
    requires users.Valid() && !users.Has(k)
    requires UserByUsername(users, username).None?
    ensures UserByUsername(users.Set(k, User(k, username, hashed)), username) == Some(User(k, username, hashed))
  {
    ValuesSetNew(users, k, User(k, username, hashed));
    FirstWithUsernameAppend(users.Values(), User(k, username, hashed));
  }

  /** Registering and then authenticating with the same password succeeds, given `compare(p, hash(p))`. */
  lemma RegisterThenAuthenticate(users: Table<User>, k: int, username: string, password: string, hashed: string,
                                 compare: (string, string) -> bool)
    requires users.Valid() && !users.Has(k)
    requires UserByUsername(users, username).None?
    requires compare(password, hashed)
    ensures Authenticate(users.Set(k, User(k, username, hashed)), username, password, compare) == Ok(UserView(k, username))
  {
    NewUserIsFound(users, k, username, hashed);
  }

  /** `register(username, password)` with `salt` standing for `bcrypt.genSalt(10)`. */
  method Register(store: MemStorage, username: string, password: string, salt: string,
                  hash: (string, string) -> string, ghost compare: (string, string) -> bool)
    returns (r: Result<UserView, string>)
    requires store.Valid()
    modifies store
    ensures store.Valid()
    ensures old(store.GetUserByUsername(username)).Some? ==>
              r == Err(UsernameTaken) && store.users == old(store.users) && store.userIdCounter == old(store.userIdCounter)
    ensures old(store.GetUserByUsername(username)).None? ==>
              && r == Ok(UserView(old(store.userIdCounter), username))
              && store.users == old(store.users).Set(r.value.id, User(r.value.id, username, hash(password, salt)))
              && store.userIdCounter == old(store.userIdCounter) + 1
    ensures r.Ok? && compare(password, hash(password, salt)) ==>
              Authenticate(store.users, username, password, compare) == r
    ensures r.Ok? ==> store.GetUserByUsername(username).Some?
    ensures store.documents == old(store.documents) && store.documentIdCounter == old(store.documentIdCounter)
    ensures store.suggestions == old(store.suggestions) && store.suggestionIdCounter == old(store.suggestionIdCounter)
  {
    if store.GetUserByUsername(username).Some? {
      return Err(UsernameTaken);
    }
    var hashed := hash(password, salt);
    ghost var before := store.users;
    var user := store.CreateUser(InsertUser(username, hashed));
    r := Ok(ViewOf(user));
    NewUserIsFound(before, user.id, username, hashed);
  }
}
