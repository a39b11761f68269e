/** backend/internal/auth/auth.go: registration, login and token refresh
    over an in-memory map of users keyed by email. Password hashing and
    checking (bcrypt) and token signing and parsing (JWT) are external:
    the hash a registration produces is a parameter, and the password check,
    the signer and the parser are given as functions of their inputs. The
    clock is a parameter. */
module Auth {
  import opened Common

  datatype User = User(id: string, email: string, passwordHash: string, roles: seq<string>)

  /** The claims a token carries; the times are Unix seconds. */
  datatype TokenClaims = TokenClaims(userId: string, email: string, roles: seq<string>,
                                     expiresAt: int, issuedAt: int, issuer: string)

  datatype TokenPair = TokenPair(access: string, refresh: string)

  const Issuer: string := "autosysadmin"
  const AccessLifetime: int := 15 * Minute
  const RefreshLifetime: int := 7 * Day

  const InvalidCredentials: string := "invalid credentials"

  /** The claims of an access token issued at `now`. */
  function AccessClaims(u: User, now: int): TokenClaims
  {
    TokenClaims(u.id, u.email, u.roles, now + AccessLifetime, now, Issuer)
  }

  /** The claims of a refresh token issued at `now`. */
  function RefreshClaims(u: User, now: int): TokenClaims
  {
    TokenClaims(u.id, u.email, u.roles, now + RefreshLifetime, now, Issuer)
  }

  /** Both tokens name the user and the issuer; the access token lives 15
      minutes and the refresh token 7 days, so the refresh token outlives
      the access token. */
  lemma TokenLifetimes(u: User, now: int)
    ensures AccessClaims(u, now).expiresAt - AccessClaims(u, now).issuedAt == 900
    ensures RefreshClaims(u, now).expiresAt - RefreshClaims(u, now).issuedAt == 604800
    ensures AccessClaims(u, now).expiresAt < RefreshClaims(u, now).expiresAt
    ensures AccessClaims(u, now).(expiresAt := 0) == RefreshClaims(u, now).(expiresAt := 0)
  {
  }

  /** The token pair for a user: the access token signed with the access
      key, then the refresh token signed with the refresh key; the first
      signing error is the answer. */
  function Tokens(sign: (seq<byte>, TokenClaims) -> Result<string>, secretKey: seq<byte>,
                  refreshSecretKey: seq<byte>, u: User, now: int): (r: Result<TokenPair>)
    ensures r.Ok? <==> sign(secretKey, AccessClaims(u, now)).Ok? && sign(refreshSecretKey, RefreshClaims(u, now)).Ok?
    ensures r.Ok? ==> r.value.access == sign(secretKey, AccessClaims(u, now)).value
    ensures r.Ok? ==> r.value.refresh == sign(refreshSecretKey, RefreshClaims(u, now)).value
    ensures sign(secretKey, AccessClaims(u, now)).Err? ==> r == Err(sign(secretKey, AccessClaims(u, now)).msg)
  {
    var access := sign(secretKey, AccessClaims(u, now));
    if access.Err? then Err(access.msg)
    else
      var refresh := sign(refreshSecretKey, RefreshClaims(u, now));
      if refresh.Err? then Err(refresh.msg) else Ok(TokenPair(access.value, refresh.value))
  }

  class AuthService {
    const secretKey: seq<byte>
    const refreshSecretKey: seq<byte>
    var users: map<string, User>

    /** Every user is filed under their email. */
    ghost predicate Valid()
      reads this
    {
      forall e :: e in users ==> users[e].email == e
    }

    constructor (secretKey: seq<byte>, refreshSecretKey: seq<byte>)
      ensures this.secretKey == secretKey && this.refreshSecretKey == refreshSecretKey
      ensures Valid() && users == map[]
    {
      this.secretKey := secretKey;
      this.refreshSecretKey := refreshSecretKey;
      users := map[];
    }

    /** Registers a new email with role "user" and the constant id; a taken
        email is "user already exists" and a hashing error is passed on,
        both leaving the users as they were. */
    method Register(email: string, password: string, hashed: Result<string>) returns (r: Result<string>)
      requires Valid()
      modifies this
      ensures Valid()
      ensures email in old(users) ==> r == Err("user already exists") && users == old(users)
      ensures email !in old(users) && hashed.Err? ==> r == Err(hashed.msg) && users == old(users)
      ensures r.Ok? <==> email !in old(users) && hashed.Ok?
      ensures r.Ok? ==> r.value == GeneratedUuid
      ensures r.Ok? ==> users == old(users)[email := User(GeneratedUuid, email, hashed.value, ["user"])]
    {
      if email in users {
        return Err("user already exists");
      }
      if hashed.Err? {
        return Err(hashed.msg);
      }
      var user := User(GeneratedUuid, email, hashed.value, ["user"]);
      users := users[email := user];
      r := Ok(user.id);
    }

    /** Checks the password against the stored hash and issues a token pair;
        an unknown email and a wrong password give the same error. */
    method Login(email: string, password: string, matches: (string, string) -> bool,
                 sign: (seq<byte>, TokenClaims) -> Result<string>, now: int)
      returns (r: Result<TokenPair>)
      ensures email !in users ==> r == Err(InvalidCredentials)
      ensures email in users && !matches(users[email].passwordHash, password) ==> r == Err(InvalidCredentials)
      ensures email in users && matches(users[email].passwordHash, password) ==>
        r == Tokens(sign, secretKey, refreshSecretKey, users[email], now)
    {
      if email !in users {
        return Err(InvalidCredentials);
      }
      var user := users[email];
      if !matches(user.passwordHash, password) {
        return Err(InvalidCredentials);
      }
      var accessToken := sign(secretKey, AccessClaims(user, now));
      if accessToken.Err? {
        return Err(accessToken.msg);
      }
      var refreshToken := sign(refreshSecretKey, RefreshClaims(user, now));
      if refreshToken.Err? {
        return Err(refreshToken.msg);
      }
      r := Ok(TokenPair(accessToken.value, refreshToken.value));
    }

    /** Parses the refresh token with the refresh key and issues a new pair
        for the user its email names: a token that does not parse is
        "invalid refresh token", an email no longer registered is "user not
        found". */
    method RefreshToken(refreshToken: string, parse: (seq<byte>, string) -> Result<TokenClaims>,
                        sign: (seq<byte>, TokenClaims) -> Result<string>, now: int)
      returns (r: Result<TokenPair>)
      ensures parse(refreshSecretKey, refreshToken).Err? ==> r == Err("invalid refresh token")
      ensures parse(refreshSecretKey, refreshToken).Ok? && parse(refreshSecretKey, refreshToken).value.email !in users
        ==> r == Err("user not found")
      ensures parse(refreshSecretKey, refreshToken).Ok? && parse(refreshSecretKey, refreshToken).value.email in users
        ==> r == Tokens(sign, secretKey, refreshSecretKey, users[parse(refreshSecretKey, refreshToken).value.email], now)
    {
      var claims := parse(refreshSecretKey, refreshToken);
      if claims.Err? {
        return Err("invalid refresh token");
      }
      if claims.value.email !in users {
        return Err("user not found");
      }
      var user := users[claims.value.email];
      var accessToken := sign(secretKey, AccessClaims(user, now));
      if accessToken.Err? {
        return Err(accessToken.msg);
      }
      var newRefreshToken := sign(refreshSecretKey, RefreshClaims(user, now));
      if newRefreshToken.Err? {
        return Err(newRefreshToken.msg);
      }
      r := Ok(TokenPair(accessToken.value, newRefreshToken.value));
    }
  }

  /** A user who registers and then logs in with a password the stored hash
      accepts gets the token pair for the new user; a second registration of
      the same email is refused. */
  method RegisterThenLogin(email: string, password: string, hash: string, matches: (string, string) -> bool,
                           sign: (seq<byte>, TokenClaims) -> Result<string>, key: seq<byte>, refreshKey: seq<byte>, now: int)
    returns (registered: Result<string>, again: Result<string>, login: Result<TokenPair>)
    requires matches(hash, password)
    ensures registered == Ok(GeneratedUuid)
    ensures again == Err("user already exists")
    ensures login == Tokens(sign, key, refreshKey, User(GeneratedUuid, email, hash, ["user"]), now)
  {
    var s := new AuthService(key, refreshKey);
    registered := s.Register(email, password, Ok(hash));
    again := s.Register(email, password, Ok(hash));
    login := s.Login(email, password, matches, sign, now);
  }
}
