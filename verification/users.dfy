/** The user store: user records keyed by email, the finder queries the user
    repository declares, and the user service that reads and updates them. */
module Users {
  import opened Common

  /** One row of the user table. `password` holds whatever the service saved
      there (the encoded form once a registration has stored it);
      `refreshToken` is the single refresh-token slot, `None` when no session
      is live. */
  datatype User = User(
    id: nat,
    email: string,
    name: string,
    password: string,
    role: Option<string>,
    age: int,
    gender: string,
    address: string,
    createdAt: Option<int>,
    refreshToken: Option<string>)

  /** The user part of a login response and of the claims embedded in tokens. */
  datatype UserLogin = UserLogin(id: nat, email: string, name: string, role: Option<string>)

  /** The response body of a registration: the public profile of the new user. */
  datatype ResCreateUserDTO = ResCreateUserDTO(
    id: nat,
    email: string,
    name: string,
    age: int,
    createdAt: Option<int>,
    gender: string,
    address: string)

  /** Failures of the user store and service. */
  datatype StoreError =
    | NotFound       // no user with the requested id
    | EmailConflict  // saving would give two users the same email
    | Unsupported    // the operation is not implemented

  /** The whole user table, together with the id the next inserted row receives. */
  datatype Store = Store(users: map<string, User>, nextId: nat)

  /** A successful save: the new table and the row as saved. */
  datatype Saved = Saved(store: Store, user: User)

  /** Every row is stored under its own email; ids are unique and below `nextId`. */
  ghost predicate WellFormed(s: Store) {
    && (forall e :: e in s.users ==> s.users[e].email == e && s.users[e].id < s.nextId)
    && (forall e1, e2 :: e1 in s.users && e2 in s.users && s.users[e1].id == s.users[e2].id ==> e1 == e2)
  }

  // ----- The repository's finder queries -----

  /** `findByEmail`: the user with this email, or `None`. */
  function FindByEmail(users: map<string, User>, email: string): (r: Option<User>)
    ensures r.Some? <==> email in users
    ensures r.Some? ==> r.value == users[email]
  {
    if email in users then Some(users[email]) else None
  }

  /** `existsByEmail`: whether a user with this email is stored. */
  function ExistsByEmail(users: map<string, User>, email: string): (b: bool)
    ensures b <==> FindByEmail(users, email).Some?
  {
    email in users
  }

  /** `findByRefreshTokenAndEmail`: the user with this email, provided its stored
      refresh token is exactly `token`; `None` otherwise. */
  function FindByRefreshTokenAndEmail(users: map<string, User>, token: string, email: string): (r: Option<User>)
    ensures r.Some? <==> email in users && users[email].refreshToken == Some(token)
    ensures r.Some? ==> r.value == users[email] && r.value.refreshToken == Some(token)
  {
    if email in users && users[email].refreshToken == Some(token) then Some(users[email]) else None
  }

  /** `findById`: the key of the row with this id, if there is one. */
  ghost function KeyOfId(users: map<string, User>, id: nat): (r: Option<string>)
    ensures r.Some? ==> r.value in users && users[r.value].id == id
    ensures r.None? ==> forall e :: e in users ==> users[e].id != id
  {
    if exists e :: e in users && users[e].id == id then
      var e :| e in users && users[e].id == id; Some(e)
    else
      None
  }

  // ----- The service's updates, as functions of the table -----

  /** `updateUserToken`: the table after the user with this email (if any) has
      had its refresh-token slot set to `token`. */
  function SetRefreshToken(s: Store, token: Option<string>, email: string): (r: Store)
    ensures r.nextId == s.nextId && r.users.Keys == s.users.Keys
    ensures email in s.users ==> r.users[email] == s.users[email].(refreshToken := token)
    ensures forall e :: e in s.users && e != email ==> r.users[e] == s.users[e]
  {
    if email in s.users then Store(s.users[email := s.users[email].(refreshToken := token)], s.nextId)
    else s
  }

  /** The table with row `e` removed and `u` stored under its own email. */
  function Replace(users: map<string, User>, e: string, u: User): (r: map<string, User>)
    ensures r.Keys == users.Keys - {e} + {u.email}
    ensures r[u.email] == u
    ensures forall k :: k in users && k != e && k != u.email ==> r[k] == users[k]
  {
    (users - {e})[u.email := u]
  }

  /** The row that `save` merges an entity into: the row named by the entity's
      id, when the id is set (0 stands for an unset id, since generated ids
      start at 1) and some row has it. `None` when `save` inserts. */
  ghost function MergeTarget(users: map<string, User>, id: nat): (r: Option<string>)
    ensures r.Some? ==> id != 0 && r.value in users && users[r.value].id == id
    ensures r.None? ==> id == 0 || forall e :: e in users ==> users[e].id != id
  {
    if id == 0 then None else KeyOfId(users, id)
  }

  /** `handleCreateUser`, i.e. the repository's `save` of the entity as given.
      An entity whose id is unset (or names no row) is inserted under the next
      generated id; an entity whose id names a stored row is merged over that
      row, replacing every field of it. Either way the email must end up
      unique. */
  ghost function CreateUser(s: Store, user: User): (r: Result<Saved, StoreError>)
    ensures r.Failure? ==> r.error == EmailConflict
    ensures MergeTarget(s.users, user.id).None? ==>
      && (r.Failure? <==> user.email in s.users)
      && (r.Success? ==>
            && r.value.user == user.(id := s.nextId)
            && r.value.store.nextId == s.nextId + 1
            && r.value.store.users.Keys == s.users.Keys + {user.email}
            && r.value.store.users[user.email] == r.value.user
            && (forall e :: e in s.users ==> r.value.store.users[e] == s.users[e]))
    ensures MergeTarget(s.users, user.id).Some? ==>
      var e := MergeTarget(s.users, user.id).value;
      && (r.Failure? <==> user.email in s.users && user.email != e)
      && (r.Success? ==>
            && r.value.user == user
            && r.value.store.nextId == s.nextId
            && r.value.store.users.Keys == s.users.Keys - {e} + {user.email}
            && r.value.store.users[user.email] == user
            && (forall k :: k in s.users && k != e ==> r.value.store.users[k] == s.users[k]))
  {
    match MergeTarget(s.users, user.id)
    case None =>
      if user.email in s.users then Failure(EmailConflict)
      else
        var u := user.(id := s.nextId);
        Success(Saved(Store(s.users[u.email := u], s.nextId + 1), u))
    case Some(e) =>
      if user.email != e && user.email in s.users then Failure(EmailConflict)
      else Success(Saved(Store(Replace(s.users, e, user), s.nextId), user))
  }

  /** `handleUpdateUser`: overwrite the name, email and password of the user
      with this id, leaving every other field (the refresh token included) as
      it was. */
  ghost function UpdateUser(s: Store, id: nat, details: User): (r: Result<Saved, StoreError>)
    ensures (r.Failure? && r.error == NotFound) <==> KeyOfId(s.users, id).None?
    ensures r.Failure? ==> r.error == NotFound || r.error == EmailConflict
    ensures r.Success? <==>
      KeyOfId(s.users, id).Some? && (details.email == KeyOfId(s.users, id).value || details.email !in s.users)
    ensures r.Success? ==>
      && r.value.user.id == id
      && r.value.user.name == details.name && r.value.user.email == details.email
      && r.value.user.password == details.password
      && details.email in r.value.store.users && r.value.store.users[details.email] == r.value.user
      && r.value.store.nextId == s.nextId
  {
    match KeyOfId(s.users, id)
    case None => Failure(NotFound)
    case Some(e) =>
      var u := s.users[e].(name := details.name, email := details.email, password := details.password);
      if u.email != e && u.email in s.users then Failure(EmailConflict)
      else Success(Saved(Store(Replace(s.users, e, u), s.nextId), u))
  }

  /** `convertToResCreateUserDTO`: the public profile of a user. */
  function ConvertToResCreateUserDTO(user: User): (r: ResCreateUserDTO)
    ensures r.id == user.id && r.email == user.email && r.name == user.name
    ensures r.age == user.age && r.createdAt == user.createdAt
    ensures r.gender == user.gender && r.address == user.address
  {
    ResCreateUserDTO(user.id, user.email, user.name, user.age, user.createdAt, user.gender, user.address)
  }

  // ----- Properties of the store -----

  /** In a well-formed table the exists query answers the question it is named
      for: some stored user has this email. */
  lemma ExistsIffSomeUserHasEmail(s: Store, email: string)
    requires WellFormed(s)
    ensures ExistsByEmail(s.users, email) <==> exists e :: e in s.users && s.users[e].email == email
  {
    if ExistsByEmail(s.users, email) {
      assert s.users[email].email == email;
    }
  }

  /** Replacing a row by one with the same id, under a key that is either the
      row's own or free, keeps the table well formed. */
  lemma ReplaceKeepsWellFormed(s: Store, e: string, u: User)
    requires WellFormed(s)
    requires e in s.users && u.id == s.users[e].id
    requires u.email == e || u.email !in s.users
    ensures WellFormed(Store(Replace(s.users, e, u), s.nextId))
  {
    var t := Replace(s.users, e, u);
    forall e1, e2 | e1 in t && e2 in t && t[e1].id == t[e2].id
      ensures e1 == e2
    {
      if e1 != u.email && e2 != u.email {
        assert t[e1] == s.users[e1] && t[e2] == s.users[e2];
      }
    }
  }

  /** In a well-formed table, the user either finder returns carries the
      email it was looked up by. */
  lemma FoundUserHasEmail(s: Store, token: string, email: string)
    requires WellFormed(s)
    ensures FindByEmail(s.users, email).Some? ==> FindByEmail(s.users, email).value.email == email
    ensures FindByRefreshTokenAndEmail(s.users, token, email).Some? ==>
              FindByRefreshTokenAndEmail(s.users, token, email).value.email == email
  {
  }

  /** After the slot of `email` is set to `token`, the token lookup for that
      email succeeds exactly for the token just stored: every other value the
      slot held before is rejected. */
  lemma LookupAfterSetRefreshToken(s: Store, token: Option<string>, email: string, presented: string)
    requires email in s.users
    ensures FindByRefreshTokenAndEmail(SetRefreshToken(s, token, email).users, presented, email).Some?
            <==> token == Some(presented)
  {
  }

  /** Setting the slot twice to the same value is the same as setting it once. */
  lemma SetRefreshTokenIdempotent(s: Store, token: Option<string>, email: string)
    ensures SetRefreshToken(SetRefreshToken(s, token, email), token, email) == SetRefreshToken(s, token, email)
  {
  }

  /** Setting a refresh token keeps the table well formed. */
  lemma SetRefreshTokenKeepsWellFormed(s: Store, token: Option<string>, email: string)
    requires WellFormed(s)
    ensures WellFormed(SetRefreshToken(s, token, email))
  {
  }

  /** Inserting a user keeps the table well formed. */
  lemma CreateUserKeepsWellFormed(s: Store, user: User)
    requires WellFormed(s)
    ensures CreateUser(s, user).Success? ==> WellFormed(CreateUser(s, user).value.store)
  {
    match MergeTarget(s.users, user.id)
    case None =>
    case Some(e) =>
      if CreateUser(s, user).Success? {
        ReplaceKeepsWellFormed(s, e, user);
      }
  }

  /** `handleUpdateUser`: a missing id fails and writes nothing; otherwise only
      name, email and password change, the row moves to its new email, and
      every other user is untouched. */
  lemma UpdateUserChangesProfileOnly(s: Store, id: nat, details: User)
    ensures var r := UpdateUser(s, id, details);
      && (r.Failure? && r.error == NotFound <==> forall e :: e in s.users ==> s.users[e].id != id)
      && (r.Success? <==>
            KeyOfId(s.users, id).Some? && (details.email == KeyOfId(s.users, id).value || details.email !in s.users))
      && (r.Success? ==>
           exists e :: e in s.users && s.users[e].id == id
             && r.value.user == s.users[e].(name := details.name, email := details.email, password := details.password)
             && r.value.store.users.Keys == s.users.Keys - {e} + {details.email}
             && details.email in r.value.store.users && r.value.store.users[details.email] == r.value.user
             && (forall k :: k in s.users && k != e ==> r.value.store.users[k] == s.users[k]))
      && (r.Success? ==> r.value.store.nextId == s.nextId)
  {
    match KeyOfId(s.users, id)
    case None =>
    case Some(e) =>
      var r := UpdateUser(s, id, details);
      if r.Success? {
        assert e in s.users && s.users[e].id == id;
        assert r.value.store.users.Keys == s.users.Keys - {e} + {details.email};
      }
  }

  /** In a well-formed table a profile update succeeds exactly when some user
      has the id and the new email is that user's own or held by nobody; the
      only other failure is the conflict on an email another user holds. */
  lemma UpdateUserSucceedsUnlessEmailTaken(s: Store, id: nat, details: User)
    requires WellFormed(s)
    ensures UpdateUser(s, id, details).Success? <==>
      exists e :: e in s.users && s.users[e].id == id && (details.email == e || details.email !in s.users)
    ensures UpdateUser(s, id, details).Failure? && UpdateUser(s, id, details).error == EmailConflict <==>
      exists e :: e in s.users && s.users[e].id == id && details.email != e && details.email in s.users
  {
    match KeyOfId(s.users, id)
    case None =>
    case Some(k) =>
      forall e | e in s.users && s.users[e].id == id
        ensures e == k
      {
      }
  }

  /** `handleUpdateUser` never touches the refresh-token slot: a user whose
      password changes keeps a live session, and the token lookup under the
      user's (unchanged) email gives the same answer as before. */
  lemma PasswordChangeKeepsSession(s: Store, id: nat, details: User, token: string)
    requires KeyOfId(s.users, id) == Some(details.email)
    ensures UpdateUser(s, id, details).Success?
    ensures UpdateUser(s, id, details).value.user.refreshToken == s.users[details.email].refreshToken
    ensures FindByRefreshTokenAndEmail(UpdateUser(s, id, details).value.store.users, token, details.email).Some?
            <==> FindByRefreshTokenAndEmail(s.users, token, details.email).Some?
  {
  }

  /** Updating a profile keeps the table well formed. */
  lemma UpdateUserKeepsWellFormed(s: Store, id: nat, details: User)
    requires WellFormed(s)
    ensures UpdateUser(s, id, details).Success? ==> WellFormed(UpdateUser(s, id, details).value.store)
  {
    match KeyOfId(s.users, id)
    case None =>
    case Some(e) =>
      if UpdateUser(s, id, details).Success? {
        ReplaceKeepsWellFormed(s, e, s.users[e].(name := details.name, email := details.email, password := details.password));
      }
  }

  /** The registration response never carries the password or the refresh
      token: it is the same whatever those two fields hold. */
  lemma CreateUserDTOHidesSecrets(user: User, password: string, token: Option<string>)
    ensures ConvertToResCreateUserDTO(user.(password := password, refreshToken := token)) == ConvertToResCreateUserDTO(user)
    ensures ConvertToResCreateUserDTO(user).id == user.id && ConvertToResCreateUserDTO(user).email == user.email
  {
  }

  // ----- The service object -----

  /** The user service, owning the user table through its repository. */
  class UserService {
    var users: map<string, User>
    var nextId: nat

    ghost predicate Valid()
      reads this
    {
      WellFormed(State())
    }

    /** The current table as a value. */
    function State(): Store
      reads this
    {
      Store(users, nextId)
    }

    constructor ()
      ensures Valid() && users == map[] && nextId == 1
    {
      users := map[];
      nextId := 1;
    }

    /** `handleGetUserByUsername`: the user whose email is `username`. */
    function HandleGetUserByUsername(username: string): (r: Option<User>)
      reads this
      ensures r.Some? <==> username in users
      ensures r.Some? ==> r.value == users[username]
    {
      FindByEmail(users, username)
    }

    /** `isEmailExist`: true exactly when `handleGetUserByUsername` finds a user. */
    function IsEmailExist(email: string): (b: bool)
      reads this
      ensures b <==> HandleGetUserByUsername(email).Some?
    {
      ExistsByEmail(users, email)
    }

    /** `getUserByRefreshTokenAndEmail`: the user with this email whose stored
        refresh token is exactly `token`. */
    function GetUserByRefreshTokenAndEmail(token: string, email: string): (r: Option<User>)
      reads this
      ensures r.Some? <==> email in users && users[email].refreshToken == Some(token)
      ensures r.Some? ==> r.value == users[email]
    {
      FindByRefreshTokenAndEmail(users, token, email)
    }

    /** `fetchUserById` is not implemented: it always fails. */
    function FetchUserById(id: int): (r: Result<User, StoreError>)
      ensures r.Failure? && r.error == Unsupported
    {
      Failure(Unsupported)
    }

    /** `updateUserToken`: set the refresh-token slot of the user with this
        email, if there is one. */
    method UpdateUserToken(token: Option<string>, email: string)
      requires Valid()
      modifies this
      ensures Valid()
      ensures State() == SetRefreshToken(old(State()), token, email)
    {
      SetRefreshTokenKeepsWellFormed(State(), token, email);
      var current := HandleGetUserByUsername(email);
      if current.Some? {
        users := users[email := current.value.(refreshToken := token)];
      }
    }

    /** `handleCreateUser`: save the entity, inserting it under a generated id
        or merging it over the row its id names. */
    method HandleCreateUser(user: User) returns (r: Result<User, StoreError>)
      requires Valid()
      modifies this
      ensures Valid()
      ensures var c := CreateUser(old(State()), user);
        && (c.Success? ==> r == Success(c.value.user) && State() == c.value.store)
        && (c.Failure? ==> r == Failure(c.error) && State() == old(State()))
    {
      CreateUserKeepsWellFormed(State(), user);
      if e :| e in users && users[e].id == user.id && user.id != 0 {
        assert MergeTarget(users, user.id) == Some(e);
        if user.email != e && user.email in users {
          r := Failure(EmailConflict);
        } else {
          users := (users - {e})[user.email := user];
          r := Success(user);
        }
      } else if user.email in users {
        r := Failure(EmailConflict);
      } else {
        var saved := user.(id := nextId);
        users := users[saved.email := saved];
        nextId := nextId + 1;
        r := Success(saved);
      }
    }

    /** `handleUpdateUser`: overwrite name, email and password of the user with
        this id; a missing id yields `NotFound` and writes nothing. */
    method HandleUpdateUser(userId: nat, details: User) returns (r: Result<User, StoreError>)
      requires Valid()
      modifies this
      ensures Valid()
      ensures var c := UpdateUser(old(State()), userId, details);
        && (c.Success? ==> r == Success(c.value.user) && State() == c.value.store)
        && (c.Failure? ==> r == Failure(c.error) && State() == old(State()))
    {
      UpdateUserKeepsWellFormed(State(), userId, details);
      if e :| e in users && users[e].id == userId {
        assert KeyOfId(users, userId) == Some(e);
        var user := users[e].(name := details.name, email := details.email, password := details.password);
        if user.email != e && user.email in users {
          r := Failure(EmailConflict);
        } else {
          users := (users - {e})[user.email := user];
          r := Success(user);
        }
      } else {
        r := Failure(NotFound);
      }
    }
  }
}
