/** The token codec, as the session core sees it: it mints access and refresh
    tokens that carry a subject email and a user snapshot and expire after a
    configured number of seconds, and it checks a presented refresh token.

    Signing is abstracted to a registry: a token string is genuine exactly when
    the codec issued it, and the claims are the ones it was issued with. Every
    minted token is the decimal rendering of a serial number, so that it differs
    from every token issued before it. */
module Tokens {
  import opened Common
  import opened Users

  datatype TokenKind = Access | Refresh

  /** The claim set a token carries. */
  datatype Claims = Claims(kind: TokenKind, subject: string, user: Option<UserLogin>, issuedAt: int, expiresAt: int)

  /** The codec's state: every token issued so far with its claims, and the
      serial number of the next one. */
  datatype Codec = Codec(issued: map<string, Claims>, minted: nat)

  /** A freshly minted token and the codec state after minting it. */
  datatype Minted = Minted(token: string, codec: Codec)

  /** The digit character for `d`. */
  function Digit(d: nat): (c: char)
    requires d < 10
    ensures '0' <= c <= '9' && c as int - '0' as int == d
  {
    ('0' as int + d) as char
  }

  /** The decimal rendering of `n`, without leading zeros. */
  function Decimal(n: nat): (s: string)
    ensures |s| > 0
    ensures forall i :: 0 <= i < |s| ==> '0' <= s[i] <= '9'
    decreases n
  {
    if n < 10 then [Digit(n)] else Decimal(n / 10) + [Digit(n % 10)]
  }

  /** The number a string of decimal digits denotes. */
  function DecimalValue(s: string): int
    decreases |s|
  {
    if |s| == 0 then 0 else 10 * DecimalValue(s[..|s| - 1]) + (s[|s| - 1] as int - '0' as int)
  }

  /** Reading back a decimal rendering gives the number rendered. */
  lemma {:induction false} DecimalRoundTrip(n: nat)
    ensures DecimalValue(Decimal(n)) == n
    decreases n
  {
    var s := Decimal(n);
    if n < 10 {
      assert s[..|s| - 1] == [];
    } else {
      assert s[..|s| - 1] == Decimal(n / 10);
      DecimalRoundTrip(n / 10);
    }
  }

  /** Distinct serial numbers give distinct token strings. */
  lemma DecimalInjective(m: nat, n: nat)
    requires Decimal(m) == Decimal(n)
    ensures m == n
  {
    DecimalRoundTrip(m);
    DecimalRoundTrip(n);
  }

  /** No token the codec will mint from now on has been issued already. */
  ghost predicate Fresh(c: Codec) {
    forall k: nat :: c.minted <= k ==> Decimal(k) !in c.issued
  }

  /** `createAccessToken` / `createRefreshToken`: issue a new token carrying
      `claims`. */
  function Mint(c: Codec, claims: Claims): (r: Minted)
    ensures Fresh(c) ==> r.token !in c.issued
    ensures r.codec.issued.Keys == c.issued.Keys + {r.token}
    ensures r.codec.issued[r.token] == claims
    ensures forall t :: t in c.issued && t != r.token ==> r.codec.issued[t] == c.issued[t]
  {
    var token := Decimal(c.minted);
    Minted(token, Codec(c.issued[token := claims], c.minted + 1))
  }

  /** Minting keeps every future token fresh. */
  lemma MintKeepsFresh(c: Codec, claims: Claims)
    ensures Fresh(c) ==> Fresh(Mint(c, claims).codec)
  {
    if Fresh(c) {
      var r := Mint(c, claims).codec;
      forall k: nat | r.minted <= k
        ensures Decimal(k) !in r.issued
      {
        if Decimal(k) == Decimal(c.minted) {
          DecimalInjective(k, c.minted);
        }
      }
    }
  }

  /** Minting from a fresh codec never re-issues a token issued earlier, and
      leaves the claims of every earlier token as they were. */
  lemma MintKeepsEarlierTokens(c: Codec, claims: Claims, t: string)
    requires Fresh(c)
    requires t in c.issued
    ensures Mint(c, claims).token != t
    ensures t in Mint(c, claims).codec.issued && Mint(c, claims).codec.issued[t] == c.issued[t]
  {
  }

  /** `checkValidRefreshToken`: the claims of `token` when it is a genuine,
      unexpired refresh token at time `now`; `None` otherwise. */
  function CheckValid(c: Codec, token: string, now: int): (r: Option<Claims>)
    ensures r.Some? <==> token in c.issued && c.issued[token].kind == Refresh && now <= c.issued[token].expiresAt
    ensures r.Some? ==> r.value == c.issued[token]
  {
    if token in c.issued && c.issued[token].kind == Refresh && now <= c.issued[token].expiresAt then
      Some(c.issued[token])
    else
      None
  }

  /** Round trip: a refresh token just minted checks as valid, with exactly the
      claims it was minted with, until its expiry time and not after; an access
      token never passes as a refresh token. */
  lemma MintThenCheck(c: Codec, claims: Claims, now: int)
    ensures var m := Mint(c, claims);
      CheckValid(m.codec, m.token, now) ==
        if claims.kind == Refresh && now <= claims.expiresAt then Some(claims) else None
  {
  }

  /** The security utility: mints tokens with the configured lifetimes and
      checks refresh tokens. */
  class SecurityUtil {
    var issued: map<string, Claims>
    var minted: nat
    const accessTokenExpiration: int
    const refreshTokenExpiration: int

    ghost predicate Valid()
      reads this
    {
      Fresh(State())
    }

    /** The codec state as a value. */
    function State(): Codec
      reads this
    {
      Codec(issued, minted)
    }

    constructor (accessTokenExpiration: int, refreshTokenExpiration: int)
      ensures Valid() && issued == map[] && minted == 0
      ensures this.accessTokenExpiration == accessTokenExpiration
      ensures this.refreshTokenExpiration == refreshTokenExpiration
    {
      issued := map[];
      minted := 0;
      this.accessTokenExpiration := accessTokenExpiration;
      this.refreshTokenExpiration := refreshTokenExpiration;
    }

    /** Mint a token and record it as issued. */
    method Issue(claims: Claims) returns (token: string)
      requires Valid()
      modifies this
      ensures Valid()
      ensures Minted(token, State()) == Mint(old(State()), claims)
    {
      MintKeepsFresh(State(), claims);
      token := Decimal(minted);
      issued := issued[token := claims];
      minted := minted + 1;
    }

    /** `createAccessToken`: a token for `email` valid for the access lifetime. */
    method CreateAccessToken(email: string, user: Option<UserLogin>, now: int) returns (token: string)
      requires Valid()
      modifies this
      ensures Valid()
      ensures Minted(token, State()) == Mint(old(State()), Claims(Access, email, user, now, now + accessTokenExpiration))
    {
      token := Issue(Claims(Access, email, user, now, now + accessTokenExpiration));
    }

    /** `createRefreshToken`: a token for `email` valid for the refresh lifetime. */
    method CreateRefreshToken(email: string, user: Option<UserLogin>, now: int) returns (token: string)
      requires Valid()
      modifies this
      ensures Valid()
      ensures Minted(token, State()) == Mint(old(State()), Claims(Refresh, email, user, now, now + refreshTokenExpiration))
    {
      token := Issue(Claims(Refresh, email, user, now, now + refreshTokenExpiration));
    }

    /** `checkValidRefreshToken`: the decoded claims, or `None` when the token
        is forged, expired or not a refresh token. */
    function CheckValidRefreshToken(token: string, now: int): (r: Option<Claims>)
      reads this
      ensures r.Some? <==> token in issued && issued[token].kind == Refresh && now <= issued[token].expiresAt
      ensures r.Some? ==> r.value == issued[token]
    {
      CheckValid(State(), token, now)
    }
  }
}
