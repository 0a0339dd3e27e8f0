/** The authentication controller: login, refresh-token rotation, logout,
    registration and the account lookup, as transitions of the user table and
    the token codec.

    Each endpoint is specified by a function from the state before the call to
    its result and the state after it (`LoginStep`, `RefreshStep`, ...); the
    controller's methods perform the same writes on the service objects and are
    proved to agree with those functions, and the lemmas below state the
    session guarantees about the functions. */
module Auth {
  import opened Common
  import opened Users
  import opened Tokens

  /** The value the refresh endpoint receives when the request carries no
      `refresh_token` cookie (the cookie parameter's declared default). */
  const MissingCookie: string := "abc"

  /** The ways an endpoint fails. */
  datatype AuthError =
    | AuthenticationFailed  // unknown email or wrong password at login
    | MissingToken          // no refresh cookie (or one whose value is the default)
    | InvalidToken          // forged, expired or not a refresh token
    | RevokedToken          // genuine, but not the token stored for its subject
    | Unauthenticated       // logout without an authenticated principal
    | DuplicateEmail        // registration with an email already stored

  /** The `refresh_token` cookie a response sets: its value (`None` for the
      empty cookie that deletes it) and its max-age in seconds. */
  datatype Cookie = Cookie(value: Option<string>, maxAge: int)

  /** The response of login and refresh: the access token and the user in the
      body, the refresh token in the cookie. */
  datatype LoginResponse = LoginResponse(accessToken: string, user: Option<UserLogin>, cookie: Cookie)

  /** The response of the account endpoint. */
  datatype UserGetAccount = UserGetAccount(user: Option<UserLogin>)

  /** The injected collaborators and settings: the password encoder, the two
      token lifetimes and the cookie max-age. */
  datatype Config = Config(encode: string -> string, accessTtl: int, refreshTtl: int, cookieMaxAge: int)

  /** Everything the endpoints read and write: the user table and the codec. */
  datatype World = World(store: Store, codec: Codec)

  /** What an endpoint returns, together with the state it leaves behind. */
  datatype Step<+T> = Step(result: Result<T, AuthError>, world: World)

  /** The invariant of the services: a well-formed table and a fresh codec. */
  ghost predicate Good(w: World) {
    WellFormed(w.store) && Fresh(w.codec)
  }

  /** The user part of a login response, built only when the user was found. */
  function UserLoginOf(u: Option<User>): Option<UserLogin> {
    match u
    case None => None
    case Some(x) => Some(UserLogin(x.id, x.email, x.name, x.role))
  }

  /** The credential check of the authentication manager: the user is found by
      email and the encoded password matches the stored one. */
  function Authenticate(encode: string -> string, users: map<string, User>, username: string, password: string): (b: bool)
    ensures b <==> FindByEmail(users, username).Some? && FindByEmail(users, username).value.password == encode(password)
  {
    username in users && encode(password) == users[username].password
  }

  /** The common tail of login and refresh: snapshot the user, mint an access
      token and then a refresh token for `email`, and store the refresh token in
      the user's slot. */
  function StartSession(cfg: Config, w: World, email: string, now: int): (r: Step<LoginResponse>)
    ensures r.result.Success? && r.result.value.cookie.value.Some?
    ensures r.result.value.cookie.maxAge == cfg.cookieMaxAge
    ensures r.result.value.user == UserLoginOf(FindByEmail(w.store.users, email))
    ensures var t := r.result.value.cookie.value.value;
      && r.world.store == SetRefreshToken(w.store, Some(t), email)
      && t in r.world.codec.issued
      && r.world.codec.issued[t] == Claims(Refresh, email, r.result.value.user, now, now + cfg.refreshTtl)
      && (Fresh(w.codec) ==> t !in w.codec.issued && Fresh(r.world.codec))
  {
    var user := UserLoginOf(FindByEmail(w.store.users, email));
    var a := Claims(Access, email, user, now, now + cfg.accessTtl);
    var access := Mint(w.codec, a);
    var rc := Claims(Refresh, email, user, now, now + cfg.refreshTtl);
    var refresh := Mint(access.codec, rc);
    MintKeepsFresh(w.codec, a);
    MintKeepsFresh(access.codec, rc);
    Step(Success(LoginResponse(access.token, user, Cookie(Some(refresh.token), cfg.cookieMaxAge))),
         World(SetRefreshToken(w.store, Some(refresh.token), email), refresh.codec))
  }

  /** `login`. */
  function LoginStep(cfg: Config, w: World, username: string, password: string, now: int): (r: Step<LoginResponse>)
    ensures r.result.Success? <==> Authenticate(cfg.encode, w.store.users, username, password)
    ensures r.result.Failure? ==> r.result.error == AuthenticationFailed && r.world == w
    ensures r.result.Success? ==> r == StartSession(cfg, w, username, now)
  {
    if !Authenticate(cfg.encode, w.store.users, username, password) then Step(Failure(AuthenticationFailed), w)
    else StartSession(cfg, w, username, now)
  }

  /** `getRefreshToken`: the default cookie is refused first, then the token's
      signature and expiry are checked, and only then is the store asked for a
      user holding exactly this token under the token's subject. */
  function RefreshStep(cfg: Config, w: World, cookie: string, now: int): (r: Step<LoginResponse>)
    ensures r.result.Failure? ==> r.world == w
    ensures r.result.Success? ==>
      && cookie != MissingCookie
      && CheckValid(w.codec, cookie, now).Some?
      && var email := CheckValid(w.codec, cookie, now).value.subject;
      && FindByRefreshTokenAndEmail(w.store.users, cookie, email).Some?
      && r == StartSession(cfg, w, email, now)
  {
    if cookie == MissingCookie then Step(Failure(MissingToken), w)
    else match CheckValid(w.codec, cookie, now)
      case None => Step(Failure(InvalidToken), w)
      case Some(decoded) =>
        var email := decoded.subject;
        if FindByRefreshTokenAndEmail(w.store.users, cookie, email).None? then Step(Failure(RevokedToken), w)
        else StartSession(cfg, w, email, now)
  }

  /** `logout`: the principal's email, or the empty string when there is no
      authenticated principal. */
  function LogoutStep(w: World, principal: Option<string>): (r: Step<Cookie>)
    ensures r.world.codec == w.codec && r.world.store.users.Keys == w.store.users.Keys
    ensures r.result.Failure? ==> r.world == w
    ensures r.result.Success? ==>
      && principal.Some? && r.result.value.value.None? && r.result.value.maxAge == 0
      && (principal.value in w.store.users ==> r.world.store.users[principal.value].refreshToken.None?)
  {
    var email := if principal.Some? then principal.value else "";
    if email == "" then Step(Failure(Unauthenticated), w)
    else Step(Success(Cookie(None, 0)), World(SetRefreshToken(w.store, None, email), w.codec))
  }

  /** `register`: the request body is saved through `handleCreateUser`, with
      its password replaced by the encoded password. */
  ghost function RegisterStep(cfg: Config, w: World, body: User): (r: Step<ResCreateUserDTO>)
    ensures r.world.codec == w.codec
    ensures r.result.Failure? <==> body.email in w.store.users
    ensures r.result.Failure? ==> r.result.error == DuplicateEmail && r.world == w
    ensures r.result.Success? ==>
      && body.email in r.world.store.users
      && r.world.store.users[body.email].password == cfg.encode(body.password)
      && r.result.value == ConvertToResCreateUserDTO(r.world.store.users[body.email])
  {
    if ExistsByEmail(w.store.users, body.email) then Step(Failure(DuplicateEmail), w)
    else
      var saved := CreateUser(w.store, body.(password := cfg.encode(body.password))).value;
      Step(Success(ConvertToResCreateUserDTO(saved.user)), World(saved.store, w.codec))
  }

  // ----- Login -----

  /** Login succeeds exactly when the credentials check; a failure changes
      nothing. A success stores in the user's slot the refresh token it returns,
      replacing whatever was there, and that token is new, is a refresh token
      for the username, and differs from the access token (which is an access
      token for the same username). No other user changes. */
  lemma LoginStoresIssuedToken(cfg: Config, w: World, username: string, password: string, now: int)
    requires Fresh(w.codec)
    ensures var o := LoginStep(cfg, w, username, password, now);
      && (o.result.Success? <==> Authenticate(cfg.encode, w.store.users, username, password))
      && (o.result.Failure? ==> o.result.error == AuthenticationFailed && o.world == w)
      && (o.result.Success? ==>
            && o.result.value.cookie.value.Some?
            && o.result.value.cookie.maxAge == cfg.cookieMaxAge
            && var t := o.result.value.cookie.value.value;
            && t !in w.codec.issued
            && o.world.store == SetRefreshToken(w.store, Some(t), username)
            && o.world.store.users[username].refreshToken == Some(t)
            && o.world.codec.issued[t].kind == Refresh && o.world.codec.issued[t].subject == username
            && o.result.value.accessToken != t
            && o.world.codec.issued[o.result.value.accessToken].kind == Access
            && o.world.codec.issued[o.result.value.accessToken].subject == username)
  {
    var o := LoginStep(cfg, w, username, password, now);
    if o.result.Success? {
      var user := UserLoginOf(FindByEmail(w.store.users, username));
      var access := Mint(w.codec, Claims(Access, username, user, now, now + cfg.accessTtl));
      MintKeepsFresh(w.codec, Claims(Access, username, user, now, now + cfg.accessTtl));
      var refresh := Mint(access.codec, Claims(Refresh, username, user, now, now + cfg.refreshTtl));
      assert refresh.token !in access.codec.issued;
    }
  }

  // ----- Refresh -----

  /** A refresh with the default cookie value fails with `MissingToken` before
      anything else is consulted, whatever the state; so does a real cookie
      whose value is that default. */
  lemma RefreshRejectsMissingCookieFirst(cfg: Config, w: World, now: int)
    ensures RefreshStep(cfg, w, MissingCookie, now) == Step(Failure(MissingToken), w)
  {
  }

  /** The signature and expiry check comes before the store lookup: a token the
      codec rejects fails with `InvalidToken` and changes nothing, and the
      outcome is the same whatever the user table holds. */
  lemma RefreshValidatesBeforeLookup(cfg: Config, w1: World, w2: World, cookie: string, now: int)
    requires w1.codec == w2.codec
    requires cookie != MissingCookie && CheckValid(w1.codec, cookie, now).None?
    ensures RefreshStep(cfg, w1, cookie, now) == Step(Failure(InvalidToken), w1)
    ensures RefreshStep(cfg, w1, cookie, now).result == RefreshStep(cfg, w2, cookie, now).result
  {
  }

  /** A refresh succeeds exactly when the cookie is present, the token is a
      genuine unexpired refresh token, and the user stored under the token's
      subject holds exactly this token. A valid token that is not the stored
      one (revoked by logout or superseded by rotation) fails with
      `RevokedToken` and changes nothing. */
  lemma RefreshAcceptsOnlyTheStoredToken(cfg: Config, w: World, cookie: string, now: int)
    ensures RefreshStep(cfg, w, cookie, now).result.Success? <==>
      && cookie != MissingCookie
      && CheckValid(w.codec, cookie, now).Some?
      && FindByRefreshTokenAndEmail(w.store.users, cookie, CheckValid(w.codec, cookie, now).value.subject).Some?
    ensures cookie != MissingCookie && CheckValid(w.codec, cookie, now).Some? &&
            FindByRefreshTokenAndEmail(w.store.users, cookie, CheckValid(w.codec, cookie, now).value.subject).None?
            ==> RefreshStep(cfg, w, cookie, now) == Step(Failure(RevokedToken), w)
  {
  }

  /** Rotation: a successful refresh stores a new refresh token, different from
      the presented one, for the presented token's subject; both new tokens
      carry that subject. Presenting the old token again, at any later time,
      fails: with `RevokedToken` while it has not expired, with `InvalidToken`
      after. */
  lemma RefreshRotates(cfg: Config, w: World, cookie: string, now: int, later: int)
    requires Fresh(w.codec)
    requires RefreshStep(cfg, w, cookie, now).result.Success?
    ensures CheckValid(w.codec, cookie, now).Some?
    ensures var o := RefreshStep(cfg, w, cookie, now);
      var email := CheckValid(w.codec, cookie, now).value.subject;
      && o.result.value.cookie.value.Some?
      && var t := o.result.value.cookie.value.value;
      && t != cookie
      && o.world.store == SetRefreshToken(w.store, Some(t), email)
      && o.world.store.users[email].refreshToken == Some(t)
      && o.world.codec.issued[t].kind == Refresh && o.world.codec.issued[t].subject == email
      && o.world.codec.issued[o.result.value.accessToken].subject == email
      && RefreshStep(cfg, o.world, cookie, later).result.Failure?
      && RefreshStep(cfg, o.world, cookie, later).result.error ==
           (if later <= w.codec.issued[cookie].expiresAt then RevokedToken else InvalidToken)
  {
    var email := CheckValid(w.codec, cookie, now).value.subject;
    var user := UserLoginOf(FindByEmail(w.store.users, email));
    var access := Mint(w.codec, Claims(Access, email, user, now, now + cfg.accessTtl));
    MintKeepsFresh(w.codec, Claims(Access, email, user, now, now + cfg.accessTtl));
    var refresh := Mint(access.codec, Claims(Refresh, email, user, now, now + cfg.refreshTtl));
    assert refresh.token !in access.codec.issued;
    assert refresh.codec.issued[cookie] == w.codec.issued[cookie];
  }

  // ----- Logout -----

  /** Logout without a principal, or with an empty email, fails and changes
      nothing. Otherwise it empties that user's slot and changes nothing else,
      returns the deleting cookie, and from then on every valid refresh token
      for that email is refused as revoked. */
  lemma LogoutRevokes(cfg: Config, w: World, principal: Option<string>, cookie: string, now: int)
    ensures var o := LogoutStep(w, principal);
      && (o.result.Failure? <==> principal.None? || principal == Some(""))
      && (o.result.Failure? ==> o.result.error == Unauthenticated && o.world == w)
      && (o.result.Success? ==>
            && o.result.value == Cookie(None, 0)
            && o.world == World(SetRefreshToken(w.store, None, principal.value), w.codec)
            && (cookie != MissingCookie && CheckValid(w.codec, cookie, now).Some? &&
                CheckValid(w.codec, cookie, now).value.subject == principal.value
                ==> RefreshStep(cfg, o.world, cookie, now) == Step(Failure(RevokedToken), o.world)))
  {
  }

  /** Logging out twice leaves the same state as logging out once. */
  lemma LogoutIdempotent(w: World, principal: Option<string>)
    ensures LogoutStep(LogoutStep(w, principal).world, principal) == LogoutStep(w, principal)
  {
  }

  // ----- Register -----

  /** Registration fails with `DuplicateEmail` and changes nothing exactly when
      the email is already stored. Otherwise the body, with the encoded
      password in place of the plaintext, is saved: inserted under a new id
      when its id names no stored user, in which case every existing user is
      kept; merged over the named user's row otherwise, in which case every
      other user is kept. The response is the saved user's public profile. */
  lemma RegisterRejectsOnlyDuplicates(cfg: Config, w: World, body: User)
    ensures var o := RegisterStep(cfg, w, body);
      && (o.result.Failure? <==> body.email in w.store.users)
      && (o.result.Failure? ==> o.result.error == DuplicateEmail && o.world == w)
      && (o.result.Success? ==>
            var hashed := body.(password := cfg.encode(body.password));
            && o.world.codec == w.codec
            && (MergeTarget(w.store.users, body.id).None? ==>
                  var stored := hashed.(id := w.store.nextId);
                  && o.world.store.users.Keys == w.store.users.Keys + {body.email}
                  && o.world.store.users[body.email] == stored
                  && (forall e :: e in w.store.users ==> o.world.store.users[e] == w.store.users[e])
                  && o.result.value == ConvertToResCreateUserDTO(stored))
            && (MergeTarget(w.store.users, body.id).Some? ==>
                  var e := MergeTarget(w.store.users, body.id).value;
                  && o.world.store.users.Keys == w.store.users.Keys - {e} + {body.email}
                  && o.world.store.users[body.email] == hashed
                  && (forall k :: k in w.store.users && k != e ==> o.world.store.users[k] == w.store.users[k])
                  && o.result.value == ConvertToResCreateUserDTO(hashed)))
  {
  }

  /** A registration body that carries the id of a stored user and a free
      email passes the duplicate check and overwrites that user's row: the
      user's old email is gone from the table, and the row under the new email
      keeps the victim's id but takes every other field, the refresh-token slot
      included, from the body. */
  lemma RegisterOverwritesRowNamedById(cfg: Config, w: World, body: User, victim: string)
    requires WellFormed(w.store)
    requires victim in w.store.users && body.id != 0 && w.store.users[victim].id == body.id
    requires body.email !in w.store.users
    ensures var o := RegisterStep(cfg, w, body);
      && o.result.Success?
      && victim !in o.world.store.users
      && o.world.store.users[body.email] == body.(password := cfg.encode(body.password))
      && o.world.store.users[body.email].id == w.store.users[victim].id
      && o.result.value.id == w.store.users[victim].id
  {
    assert MergeTarget(w.store.users, body.id) == Some(victim);
  }

  // ----- Tokens versus the missing-cookie default -----

  /** No token the codec mints equals the missing-cookie default, so refusing
      that value never refuses a genuine token. */
  lemma MintedTokenIsNeverTheDefault(c: Codec, claims: Claims)
    ensures Mint(c, claims).token != MissingCookie
  {
    var t := Mint(c, claims).token;
    assert '0' <= t[0] <= '9' && MissingCookie[0] == 'a';
  }

  // ----- The controller object -----

  /** The authentication controller with its injected collaborators. */
  class AuthController {
    const userService: UserService
    const securityUtil: SecurityUtil
    const passwordEncoder: string -> string
    const refreshTokenExpiration: int

    constructor (userService: UserService, securityUtil: SecurityUtil, passwordEncoder: string -> string, refreshTokenExpiration: int)
      ensures this.userService == userService && this.securityUtil == securityUtil
      ensures this.passwordEncoder == passwordEncoder && this.refreshTokenExpiration == refreshTokenExpiration
    {
      this.userService := userService;
      this.securityUtil := securityUtil;
      this.passwordEncoder := passwordEncoder;
      this.refreshTokenExpiration := refreshTokenExpiration;
    }

    ghost predicate Valid()
      reads userService, securityUtil
    {
      userService.Valid() && securityUtil.Valid()
    }

    /** The state of both services as a value. */
    function State(): World
      reads userService, securityUtil
    {
      World(userService.State(), securityUtil.State())
    }

    /** The settings the endpoints use. */
    function Cfg(): Config {
      Config(passwordEncoder, securityUtil.accessTokenExpiration, securityUtil.refreshTokenExpiration, refreshTokenExpiration)
    }

    /** The common tail of `login` and `getRefreshToken`: snapshot the user,
        mint the two tokens and store the refresh token. */
    method IssueSession(email: string, now: int) returns (r: LoginResponse)
      requires Valid()
      modifies userService, securityUtil
      ensures Valid()
      ensures Step(Success(r), State()) == StartSession(Cfg(), old(State()), email, now)
    {
      var currentUserDB := userService.HandleGetUserByUsername(email);
      var user := UserLoginOf(currentUserDB);
      var accessToken := securityUtil.CreateAccessToken(email, user, now);
      var refreshToken := securityUtil.CreateRefreshToken(email, user, now);
      userService.UpdateUserToken(Some(refreshToken), email);
      r := LoginResponse(accessToken, user, Cookie(Some(refreshToken), refreshTokenExpiration));
    }

    /** `login`. */
    method Login(username: string, password: string, now: int) returns (r: Result<LoginResponse, AuthError>)
      requires Valid()
      modifies userService, securityUtil
      ensures Valid()
      ensures Step(r, State()) == LoginStep(Cfg(), old(State()), username, password, now)
    {
      if !Authenticate(passwordEncoder, userService.users, username, password) {
        return Failure(AuthenticationFailed);
      }
      var response := IssueSession(username, now);
      r := Success(response);
    }

    /** `getAccount`: the profile of the authenticated principal, without its
        role; no user (or no principal) gives an empty response. */
    method GetAccount(principal: Option<string>) returns (r: UserGetAccount)
      ensures var email := if principal.Some? then principal.value else "";
        && (r.user.Some? <==> email in userService.users)
        && (r.user.Some? ==>
              var u := userService.users[email];
              r.user.value == UserLogin(u.id, u.email, u.name, None))
    {
      var email := if principal.Some? then principal.value else "";
      var currentUserDB := userService.HandleGetUserByUsername(email);
      if currentUserDB.Some? {
        var u := currentUserDB.value;
        r := UserGetAccount(Some(UserLogin(u.id, u.email, u.name, None)));
      } else {
        r := UserGetAccount(None);
      }
    }

    /** `getRefreshToken`. */
    method GetRefreshToken(refreshToken: string, now: int) returns (r: Result<LoginResponse, AuthError>)
      requires Valid()
      modifies userService, securityUtil
      ensures Valid()
      ensures Step(r, State()) == RefreshStep(Cfg(), old(State()), refreshToken, now)
    {
      if refreshToken == MissingCookie {
        return Failure(MissingToken);
      }
      var decodedToken := securityUtil.CheckValidRefreshToken(refreshToken, now);
      if decodedToken.None? {
        return Failure(InvalidToken);
      }
      var email := decodedToken.value.subject;
      var currentUser := userService.GetUserByRefreshTokenAndEmail(refreshToken, email);
      if currentUser.None? {
        return Failure(RevokedToken);
      }
      var response := IssueSession(email, now);
      r := Success(response);
    }

    /** `logout`. */
    method Logout(principal: Option<string>) returns (r: Result<Cookie, AuthError>)
      requires Valid()
      modifies userService
      ensures Valid()
      ensures Step(r, State()) == LogoutStep(old(State()), principal)
    {
      var email := if principal.Some? then principal.value else "";
      if email == "" {
        return Failure(Unauthenticated);
      }
      userService.UpdateUserToken(None, email);
      r := Success(Cookie(None, 0));
    }

    /** `register`. */
    method Register(body: User) returns (r: Result<ResCreateUserDTO, AuthError>)
      requires Valid()
      modifies userService
      ensures Valid()
      ensures Step(r, State()) == RegisterStep(Cfg(), old(State()), body)
    {
      if userService.IsEmailExist(body.email) {
        return Failure(DuplicateEmail);
      }
      var hashPassword := passwordEncoder(body.password);
      var created := userService.HandleCreateUser(body.(password := hashPassword));
      r := Success(ConvertToResCreateUserDTO(created.value));
    }
  }
}
