/**
 The values of user-service. Cryptography is ideal: a MAC, a password hash and a signed
 token are records of what went into them, so equality means equal inputs.
 */
module Model {
  import opened Wrappers
  import opened GoTime

  datatype Mac = Mac(secret: string, data: string)
  datatype Hash = Bcrypt(password: string)

  datatype Meta = Meta(firstName: string, lastName: string, email: string, hashedPassword: Hash)
  datatype SessionData = SessionData(hashedOtp: Mac, meta: Meta)

  /** A row of the users table. */
  datatype UserRow = UserRow(id: string, firstName: string, lastName: string, email: string,
                             password: Option<Hash>, emailVerified: bool)

  /** A row of the auth_providers table. */
  datatype LinkRow = LinkRow(id: string, provider: string, providerId: string, userId: string)

  /** What json.Marshal keeps of a user: neither the password nor the auth providers. */
  datatype Profile = Profile(id: string, firstName: string, lastName: string, email: string, emailVerified: bool)

  function Public(u: UserRow): Profile { Profile(u.id, u.firstName, u.lastName, u.email, u.emailVerified) }

  datatype Config = Config(otpTTL: int, otpRateMaxPerHour: int, otpMaxVerifyAttempts: int, otpHmacSecret: string,
                           jwtAccessSecret: string, jwtRefreshSecret: string,
                           accessTokenExp: int, refreshTokenExp: int, redisUserTTL: int)

  function hmacFor(secret: string, email: string, otp: string): Mac { Mac(secret, email + ":" + otp) }

  /** The stored MAC accepts exactly the code it was made from. */
  lemma MacAcceptsOnlyItsCode(secret: string, email: string, otp: string, guess: string)
    ensures hmacFor(secret, email, otp) == hmacFor(secret, email, guess) <==> otp == guess
  {
    var prefix := email + ":";
    assert (prefix + otp)[|prefix|..] == otp && (prefix + guess)[|prefix|..] == guess;
  }

  /** For codes without a colon, and generated codes are digits, the MAC binds email, code and secret at once. */
  lemma MacBindsEmailAndCode(secret: string, email: string, otp: string, other: string, email2: string, guess: string)
    requires ':' !in otp && ':' !in guess
    ensures hmacFor(secret, email, otp) == hmacFor(other, email2, guess) <==> secret == other && email == email2 && otp == guess
  {
    if email + ":" + otp == email2 + ":" + guess { SplitsAtLastColon(email, otp, email2, guess); }
  }

  lemma LastColon(a: string, x: string)
    requires ':' !in x
    ensures var s := a + ":" + x; s[|a|] == ':' && forall i | |a| < i < |s| :: s[i] != ':'
  {
  }

  lemma SplitsAtLastColon(a: string, x: string, b: string, y: string)
    requires a + ":" + x == b + ":" + y && ':' !in x && ':' !in y
    ensures a == b && x == y
  {
    LastColon(a, x);
    LastColon(b, y);
    var s, t := a + ":" + x, b + ":" + y;
    assert |a| == |b|;
    assert a == s[..|a|] == t[..|b|] == b && x == s[|a| + 1..] == t[|b| + 1..] == y;
  }

  /** bcrypt refuses passwords longer than 72 bytes. */
  function HashPassword(password: string): Option<Hash> {
    if |password| > 72 then None else Some(Bcrypt(password))
  }

  // ---- tokens ----

  datatype Claims = Claims(userId: string, jti: string, exp: Option<int>)

  datatype Token = Empty | Malformed | Signed(hmac: bool, secret: string, claims: Claims)

  /** jwt.NewNumericDate keeps whole seconds. */
  function NumericDate(t: int): int { (t / SECOND) * SECOND }

  /** It is the last whole second that is not later. */
  lemma NumericDateIsTheLastSecond(t: int, d: int)
    ensures NumericDate(t) <= t < NumericDate(t) + SECOND && NumericDate(t) % SECOND == 0
    ensures d % SECOND == 0 && d <= t ==> d <= NumericDate(t)
  {
    WholeSeconds(t, d);
  }

  lemma WholeSeconds(t: int, d: int)
    ensures (t / SECOND) * SECOND <= t < (t / SECOND) * SECOND + SECOND && (t / SECOND) * SECOND % SECOND == 0
    ensures d % SECOND == 0 && d <= t ==> d <= (t / SECOND) * SECOND
  {
  }

  function GenerateAccessToken(userId: string, config: Config, now: int): Token {
    Signed(true, config.jwtAccessSecret, Claims(userId, "", Some(NumericDate(now + Seconds(config.accessTokenExp)))))
  }

  function GenerateRefreshToken(userId: string, config: Config, now: int, jti: string): Token {
    Signed(true, config.jwtRefreshSecret, Claims(userId, jti, Some(NumericDate(now + Seconds(config.refreshTokenExp)))))
  }

  /** verifyToken: an HMAC signature under the secret and, when there is one, an exp in the future. */
  function VerifyToken(t: Token, secret: string, now: int): Option<Claims> {
    if t.Empty? || secret == "" then None
    else if t.Malformed? || !t.hmac || t.secret != secret then None
    else if t.claims.exp.Some? && !(now < t.claims.exp.value) then None
    else Some(t.claims)
  }

  function VerifyRefreshToken(t: Token, config: Config, now: int): Option<Claims> {
    VerifyToken(t, config.jwtRefreshSecret, now)
  }

  function VerifyAccessToken(t: Token, config: Config, now: int): Option<Claims> {
    VerifyToken(t, config.jwtAccessSecret, now)
  }

  /** Whoever made it: a token signed by HMAC under this secret, with no exp or one that lies ahead. */
  predicate Genuine(t: Token, secret: string, now: int) {
    && secret != "" && t.Signed? && t.hmac && t.secret == secret
    && (match t.claims.exp case None => true case Some(exp) => now < exp)
  }

  /** Any token at all verifies, to its own claims, if and only if it is genuine. */
  lemma VerifiesExactlyTheGenuine(t: Token, secret: string, now: int)
    ensures VerifyToken(t, secret, now) == if Genuine(t, secret, now) then Some(t.claims) else None
  {
  }

  /** A refresh token verifies exactly while its secret is set and its whole-second expiry lies ahead. */
  lemma RefreshTokenVerifiesExactly(userId: string, config: Config, issued: int, jti: string, now: int)
    ensures VerifyRefreshToken(GenerateRefreshToken(userId, config, issued, jti), config, now) ==
            if config.jwtRefreshSecret != "" && now < NumericDate(issued + Seconds(config.refreshTokenExp))
            then Some(Claims(userId, jti, Some(NumericDate(issued + Seconds(config.refreshTokenExp))))) else None
    ensures NumericDate(issued + Seconds(config.refreshTokenExp)) <= issued + Seconds(config.refreshTokenExp)
  {
  }

  /** And so does an access token, under its own secret and with its own lifetime; it carries no JTI. */
  lemma AccessTokenVerifiesExactly(userId: string, config: Config, issued: int, now: int)
    ensures VerifyAccessToken(GenerateAccessToken(userId, config, issued), config, now) ==
            if config.jwtAccessSecret != "" && now < NumericDate(issued + Seconds(config.accessTokenExp))
            then Some(Claims(userId, "", Some(NumericDate(issued + Seconds(config.accessTokenExp))))) else None
  {
  }

  /** With different secrets neither kind of token passes for the other. */
  lemma KindsAreApart(userId: string, config: Config, issued: int, jti: string, now: int)
    requires config.jwtAccessSecret != config.jwtRefreshSecret
    ensures VerifyRefreshToken(GenerateAccessToken(userId, config, issued), config, now) == None
    ensures VerifyAccessToken(GenerateRefreshToken(userId, config, issued, jti), config, now) == None
  {
  }
}
