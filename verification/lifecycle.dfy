/** The refresh-token lifecycle over whole runs: any sequence of logins,
    refreshes, logouts, registrations and profile updates, starting from the
    empty system. The guarantees here are about every later state, not about
    one call: a refresh token that has been rotated away or revoked by logout
    is never accepted again. */
module Lifecycle {
  import opened Common
  import opened Users
  import opened Tokens
  import opened Auth

  /** One request to the system. */
  datatype Op =
    | LoginOp(username: string, password: string, now: int)
    | RefreshOp(cookie: string, now: int)
    | LogoutOp(principal: Option<string>)
    | RegisterOp(body: User)
    | UpdateUserOp(id: nat, details: User)

  /** The state after one request. */
  ghost function Apply(cfg: Config, w: World, op: Op): World {
    match op
    case LoginOp(username, password, now) => LoginStep(cfg, w, username, password, now).world
    case RefreshOp(cookie, now) => RefreshStep(cfg, w, cookie, now).world
    case LogoutOp(principal) => LogoutStep(w, principal).world
    case RegisterOp(body) => RegisterStep(cfg, w, body).world
    case UpdateUserOp(id, details) =>
      match UpdateUser(w.store, id, details)
      case Success(saved) => World(saved.store, w.codec)
      case Failure(_) => w
  }

  /** The state after a sequence of requests. */
  ghost function Run(cfg: Config, w: World, ops: seq<Op>): World
    decreases |ops|
  {
    if ops == [] then w else Run(cfg, Apply(cfg, w, ops[0]), ops[1..])
  }

  /** The system before any request. */
  function Initial(): World {
    World(Store(map[], 1), Codec(map[], 0))
  }

  /** A request that does not smuggle a refresh token into the table: the
      registration endpoint saves the body's refresh-token field as it comes. */
  ghost predicate Tokenless(op: Op) {
    op.RegisterOp? ==> op.body.refreshToken.None?
  }

  /** The lifecycle invariant: the services' invariant, no two users hold the
      same refresh token, and no user holds a token the codec has yet to mint. */
  ghost predicate Inv(w: World) {
    && Good(w)
    && (forall e1, e2 :: e1 in w.store.users && e2 in w.store.users && e1 != e2 && w.store.users[e1].refreshToken.Some?
          ==> w.store.users[e1].refreshToken != w.store.users[e2].refreshToken)
    && (forall e, k: nat :: e in w.store.users && w.codec.minted <= k ==> w.store.users[e].refreshToken != Some(Decimal(k)))
  }

  /** A token that has been issued but is held by no user. */
  ghost predicate Dead(w: World, t: string) {
    t in w.codec.issued && forall e :: e in w.store.users ==> w.store.users[e].refreshToken != Some(t)
  }

  /** The empty system satisfies the invariant. */
  lemma InitialInv()
    ensures Inv(Initial())
  {
  }

  /** Starting a session keeps the invariant: the token stored is one nobody
      held and the codec will not mint again. */
  lemma StartSessionKeepsInv(cfg: Config, w: World, email: string, now: int)
    requires Inv(w)
    ensures Inv(StartSession(cfg, w, email, now).world)
  {
    var w' := StartSession(cfg, w, email, now).world;
    var t := StartSession(cfg, w, email, now).result.value.cookie.value.value;
    SetRefreshTokenKeepsWellFormed(w.store, Some(t), email);
    forall e, k: nat | e in w'.store.users && w'.codec.minted <= k
      ensures w'.store.users[e].refreshToken != Some(Decimal(k))
    {
      if e != email {
        assert w'.store.users[e] == w.store.users[e];
      }
    }
  }

  /** Replacing a user's row by one with the same id, under a key that is its
      own or free, keeps the invariant as long as the new row holds either no
      token or the token the replaced row held. */
  lemma ReplaceKeepsInv(w: World, e: string, u: User)
    requires Inv(w)
    requires e in w.store.users && u.id == w.store.users[e].id
    requires u.email == e || u.email !in w.store.users
    requires u.refreshToken.None? || u.refreshToken == w.store.users[e].refreshToken
    ensures Inv(World(Store(Replace(w.store.users, e, u), w.store.nextId), w.codec))
  {
    ReplaceKeepsWellFormed(w.store, e, u);
    var old_ := w.store.users;
    var new_ := Replace(old_, e, u);
    forall k | k in new_ && k != u.email
      ensures k in old_ && k != e && new_[k] == old_[k]
    {
    }
  }

  /** The same replacement keeps a dead token dead. */
  lemma ReplaceKeepsDead(w: World, e: string, u: User, t: string)
    requires Dead(w, t)
    requires e in w.store.users
    requires u.refreshToken.None? || u.refreshToken == w.store.users[e].refreshToken
    ensures Dead(World(Store(Replace(w.store.users, e, u), w.store.nextId), w.codec), t)
  {
    var new_ := Replace(w.store.users, e, u);
    forall k | k in new_
      ensures new_[k].refreshToken != Some(t)
    {
      if k != u.email {
        assert k in w.store.users;
      }
    }
  }

  /** A profile update moves one user to its new email and keeps its token,
      so the invariant holds afterwards. */
  lemma UpdateUserKeepsInv(w: World, id: nat, details: User)
    requires Inv(w)
    ensures UpdateUser(w.store, id, details).Success? ==> Inv(World(UpdateUser(w.store, id, details).value.store, w.codec))
  {
    match KeyOfId(w.store.users, id)
    case None =>
    case Some(e) =>
      if UpdateUser(w.store, id, details).Success? {
        ReplaceKeepsInv(w, e, w.store.users[e].(name := details.name, email := details.email, password := details.password));
      }
  }

  /** Every tokenless request keeps the invariant. */
  lemma ApplyKeepsInv(cfg: Config, w: World, op: Op)
    requires Inv(w) && Tokenless(op)
    ensures Inv(Apply(cfg, w, op))
  {
    match op
    case LoginOp(username, password, now) =>
      if Authenticate(cfg.encode, w.store.users, username, password) {
        StartSessionKeepsInv(cfg, w, username, now);
      }
    case RefreshOp(cookie, now) =>
      if RefreshStep(cfg, w, cookie, now).result.Success? {
        StartSessionKeepsInv(cfg, w, CheckValid(w.codec, cookie, now).value.subject, now);
      }
    case LogoutOp(principal) =>
      if principal.Some? {
        SetRefreshTokenKeepsWellFormed(w.store, None, principal.value);
      }
    case RegisterOp(body) =>
      var hashed := body.(password := cfg.encode(body.password));
      CreateUserKeepsWellFormed(w.store, hashed);
      if body.email !in w.store.users {
        match MergeTarget(w.store.users, hashed.id)
        case None =>
        case Some(e) => ReplaceKeepsInv(w, e, hashed);
      }
    case UpdateUserOp(id, details) =>
      UpdateUserKeepsInv(w, id, details);
  }

  /** Every tokenless request keeps a dead token dead: the tokens a request
      stores are freshly minted, empty, or moved along with their user. */
  lemma ApplyKeepsDead(cfg: Config, w: World, op: Op, t: string)
    requires Inv(w) && Tokenless(op) && Dead(w, t)
    ensures Dead(Apply(cfg, w, op), t)
  {
    match op
    case LoginOp(username, password, now) =>
      if Authenticate(cfg.encode, w.store.users, username, password) {
        SessionKeepsDead(cfg, w, username, now, t);
      }
    case RefreshOp(cookie, now) =>
      if RefreshStep(cfg, w, cookie, now).result.Success? {
        SessionKeepsDead(cfg, w, CheckValid(w.codec, cookie, now).value.subject, now, t);
      }
    case LogoutOp(principal) =>
    case RegisterOp(body) =>
      var hashed := body.(password := cfg.encode(body.password));
      if body.email !in w.store.users {
        match MergeTarget(w.store.users, hashed.id)
        case None =>
        case Some(e) => ReplaceKeepsDead(w, e, hashed, t);
      }
    case UpdateUserOp(id, details) =>
      match KeyOfId(w.store.users, id)
      case None =>
      case Some(e) =>
        if UpdateUser(w.store, id, details).Success? {
          ReplaceKeepsDead(w, e, w.store.users[e].(name := details.name, email := details.email, password := details.password), t);
        }
  }

  /** Starting a session stores a token minted after every issued one, so it
      is never a dead token. */
  lemma SessionKeepsDead(cfg: Config, w: World, email: string, now: int, t: string)
    requires Inv(w) && Dead(w, t)
    ensures Dead(StartSession(cfg, w, email, now).world, t)
  {
    var user := UserLoginOf(FindByEmail(w.store.users, email));
    var a := Claims(Access, email, user, now, now + cfg.accessTtl);
    var access := Mint(w.codec, a);
    MintKeepsFresh(w.codec, a);
    MintKeepsEarlierTokens(access.codec, Claims(Refresh, email, user, now, now + cfg.refreshTtl), t);
  }

  /** A dead token is refused by the refresh endpoint. */
  lemma DeadTokenIsRefused(cfg: Config, w: World, t: string, now: int)
    requires Dead(w, t)
    ensures RefreshStep(cfg, w, t, now).result.Failure?
  {
  }

  /** A dead token stays dead through any run of tokenless requests, and the
      invariant holds throughout. */
  lemma {:induction false} RunKeepsDead(cfg: Config, w: World, ops: seq<Op>, t: string)
    requires Inv(w) && Dead(w, t)
    requires forall i :: 0 <= i < |ops| ==> Tokenless(ops[i])
    ensures Inv(Run(cfg, w, ops)) && Dead(Run(cfg, w, ops), t)
    decreases |ops|
  {
    if ops != [] {
      ApplyKeepsInv(cfg, w, ops[0]);
      ApplyKeepsDead(cfg, w, ops[0], t);
      RunKeepsDead(cfg, Apply(cfg, w, ops[0]), ops[1..], t);
    }
  }

  /** The invariant holds after any run of tokenless requests from the empty
      system. */
  lemma {:induction false} RunKeepsInv(cfg: Config, w: World, ops: seq<Op>)
    requires Inv(w)
    requires forall i :: 0 <= i < |ops| ==> Tokenless(ops[i])
    ensures Inv(Run(cfg, w, ops))
    decreases |ops|
  {
    if ops != [] {
      ApplyKeepsInv(cfg, w, ops[0]);
      RunKeepsInv(cfg, Apply(cfg, w, ops[0]), ops[1..]);
    }
  }

  /** Rotation is permanent: once a refresh with token `t` has succeeded, no
      later refresh with `t` succeeds, whatever tokenless requests come in
      between and whenever it is presented. */
  lemma RotatedTokenIsRefusedForever(cfg: Config, w: World, t: string, now: int, ops: seq<Op>, later: int)
    requires Inv(w)
    requires RefreshStep(cfg, w, t, now).result.Success?
    requires forall i :: 0 <= i < |ops| ==> Tokenless(ops[i])
    ensures RefreshStep(cfg, Run(cfg, RefreshStep(cfg, w, t, now).world, ops), t, later).result.Failure?
  {
    var decoded := CheckValid(w.codec, t, now);
    assert t != MissingCookie && decoded.Some?;
    var email := decoded.value.subject;
    assert FindByRefreshTokenAndEmail(w.store.users, t, email).Some?;
    var w' := RefreshStep(cfg, w, t, now).world;
    assert w' == StartSession(cfg, w, email, now).world;
    StartSessionKeepsInv(cfg, w, email, now);
    SessionKeepsDeadAfterRotation(cfg, w, email, now, t);
    RunKeepsDead(cfg, w', ops, t);
    DeadTokenIsRefused(cfg, Run(cfg, w', ops), t, later);
  }

  /** Right after a successful refresh with `t`, no user holds `t`: its
      subject's slot holds the new token, and no other user held `t`. */
  lemma SessionKeepsDeadAfterRotation(cfg: Config, w: World, email: string, now: int, t: string)
    requires Inv(w)
    requires t in w.codec.issued
    requires email in w.store.users && w.store.users[email].refreshToken == Some(t)
    ensures Dead(StartSession(cfg, w, email, now).world, t)
  {
    var user := UserLoginOf(FindByEmail(w.store.users, email));
    var a := Claims(Access, email, user, now, now + cfg.accessTtl);
    var access := Mint(w.codec, a);
    MintKeepsFresh(w.codec, a);
    MintKeepsEarlierTokens(access.codec, Claims(Refresh, email, user, now, now + cfg.refreshTtl), t);
    var w' := StartSession(cfg, w, email, now).world;
    forall e | e in w'.store.users
      ensures w'.store.users[e].refreshToken != Some(t)
    {
      if e != email {
        assert w'.store.users[e] == w.store.users[e];
      }
    }
  }

  /** Logout is permanent: the refresh token a user held when logging out is
      never accepted again, whatever tokenless requests follow. */
  lemma LoggedOutTokenIsRefusedForever(cfg: Config, w: World, email: string, t: string, ops: seq<Op>, later: int)
    requires Inv(w)
    requires email != "" && email in w.store.users && w.store.users[email].refreshToken == Some(t)
    requires t in w.codec.issued
    requires forall i :: 0 <= i < |ops| ==> Tokenless(ops[i])
    ensures RefreshStep(cfg, Run(cfg, LogoutStep(w, Some(email)).world, ops), t, later).result.Failure?
  {
    var w' := LogoutStep(w, Some(email)).world;
    SetRefreshTokenKeepsWellFormed(w.store, None, email);
    forall e | e in w'.store.users
      ensures w'.store.users[e].refreshToken != Some(t)
    {
      if e != email {
        assert w'.store.users[e] == w.store.users[e];
      }
    }
    ApplyKeepsInv(cfg, w, LogoutOp(Some(email)));
    RunKeepsDead(cfg, w', ops, t);
    DeadTokenIsRefused(cfg, Run(cfg, w', ops), t, later);
  }

  /** The session walk-through: register a user, log in, refresh with the first
      refresh token to obtain a second one; the first is then refused as
      revoked, while the second is accepted. */
  lemma RegisterLoginRotateScenario(cfg: Config, now: int)
    requires 0 <= cfg.refreshTtl
    ensures var body := User(0, "a@x.com", "A", "pw1", None, 20, "", "", None, None);
      var registered := RegisterStep(cfg, Initial(), body);
      var login := LoginStep(cfg, registered.world, "a@x.com", "pw1", now);
      && registered.result.Success?
      && login.result.Success? && login.result.value.cookie.value.Some?
      && var r1 := login.result.value.cookie.value.value;
      && var first := RefreshStep(cfg, login.world, r1, now);
      && first.result.Success? && first.result.value.cookie.value.Some?
      && var r2 := first.result.value.cookie.value.value;
      && r2 != r1
      && RefreshStep(cfg, first.world, r1, now).result == Failure(RevokedToken)
      && RefreshStep(cfg, first.world, r2, now).result.Success?
  {
    var body := User(0, "a@x.com", "A", "pw1", None, 20, "", "", None, None);
    var w0 := Initial();
    var w1 := RegisterStep(cfg, w0, body).world;
    assert w1.store.users["a@x.com"].password == cfg.encode("pw1");
    LoginStoresIssuedToken(cfg, w1, "a@x.com", "pw1", now);
    var login := LoginStep(cfg, w1, "a@x.com", "pw1", now);
    var r1 := login.result.value.cookie.value.value;
    assert login.world.codec.issued[r1].expiresAt == now + cfg.refreshTtl;
    assert CheckValid(login.world.codec, r1, now).Some?;
    MintKeepsFresh(w1.codec, Claims(Access, "a@x.com", UserLoginOf(FindByEmail(w1.store.users, "a@x.com")), now, now + cfg.accessTtl));
    assert Fresh(login.world.codec) by {
      MintKeepsFresh(Mint(w1.codec, Claims(Access, "a@x.com", UserLoginOf(FindByEmail(w1.store.users, "a@x.com")), now, now + cfg.accessTtl)).codec,
                     Claims(Refresh, "a@x.com", UserLoginOf(FindByEmail(w1.store.users, "a@x.com")), now, now + cfg.refreshTtl));
    }
    RefreshRotates(cfg, login.world, r1, now, now);
    var first := RefreshStep(cfg, login.world, r1, now);
    var r2 := first.result.value.cookie.value.value;
    assert first.world.codec.issued[r2].expiresAt == now + cfg.refreshTtl;
  }
}
