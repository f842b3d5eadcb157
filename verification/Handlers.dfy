/**
 The handlers of user-service as methods over the Redis, database and Kafka objects. Each
 runs the source's commands in order and is proved to do exactly what Service.Apply says of
 the typed store and the tables.
 */
module Handlers {
  import opened Wrappers
  import opened GoTime
  import opened Model
  import opened Models
  import opened Keys
  import opened TimedStore
  import opened Tables
  import opened Service
  import opened Atomic
  import opened Database
  import opened Redis
  import opened KafkaPublisher
  import opened NotificationProducer
  import GoErrors
  import KafkaProducer

  datatype Generated = TooMany | NoCode | NotSaved | Stored

  class UserService {
    const config: Config
    const redis: RedisClient
    const db: DB
    const kafka: KafkaProducerObject

    constructor (config: Config, redis: RedisClient, db: DB, kafka: KafkaProducerObject)
      ensures this.config == config && this.redis == redis && this.db == db && this.kafka == kafka
    {
      this.config, this.redis, this.db, this.kafka := config, redis, db, kafka;
    }

    /** The abstract world behind the objects. */
    ghost function Now(): World
      reads redis, db
    {
      World(redis.now, redis.typed, db.Rows())
    }

    ghost predicate Valid()
      reads redis, db
    {
      redis.Valid() && db.Valid()
    }

    // ---- utils.go ----

    method GenerateAndStoreOTP(meta: Meta, otp: string, sid: string, faults: Faults) returns (r: Generated)
      requires Valid()
      modifies redis
      ensures Valid() && redis.now == old(redis.now)
      ensures r == if CountAt(old(redis.typed), Rate(meta.email), redis.now) >= config.otpRateMaxPerHour then TooMany
                   else if faults.random then NoCode else if faults.save then NotSaved else Stored
      ensures !r.Stored? ==> redis.typed == old(redis.typed)
      ensures r.Stored? ==>
                var data := SessionData(hmacFor(config.otpHmacSecret, meta.email, otp), meta);
                var s := Set(old(redis.typed), Session(sid), OtpSession(data), redis.now, Seconds(config.otpTTL));
                redis.typed == Expire(Incr(s, Rate(meta.email), redis.now), Rate(meta.email), redis.now, HOUR)
    {
      var rateKey := GetOTPRateKey(meta.email);
      var sentCount := redis.GetInt(rateKey, Rate(meta.email));
      if sentCount >= config.otpRateMaxPerHour {
        return TooMany;
      }
      if faults.random {
        return NoCode;
      }
      var hashed := hmacFor(config.otpHmacSecret, meta.email, otp);
      if faults.save {
        return NotSaved;
      }
      redis.Set(GetOTPSessionKey(sid), Session(sid), OtpSession(SessionData(hashed, meta)), Seconds(config.otpTTL));
      redis.Incr(rateKey, Rate(meta.email));
      redis.Expire(rateKey, Rate(meta.email), HOUR);
      r := Stored;
    }

    method RemoveStoredOTP(sid: string, fails: bool) returns (ok: bool)
      requires Valid()
      modifies redis
      ensures Valid() && redis.now == old(redis.now) && ok == !fails
      ensures redis.typed == if fails then old(redis.typed) else Del(old(redis.typed), Session(sid))
    {
      if fails {
        return false;
      }
      redis.Del("otp:session:" + sid, Session(sid));
      ok := true;
    }

    method VerifyAndConsumeOTP(code: string, sid: string, ghost req: Request) returns (meta: Option<Meta>)
      requires Valid() && code != "" && sid != "" && req.VerifyOTP? && req.code == code && req.otpSid == sid
      modifies redis
      ensures Valid() && redis.now == old(redis.now)
      ensures var w := old(Now());
              if Consumes(config, w, req) then
                meta == Some(SessionOf(w, sid).value.meta) && redis.typed == ConsumedStore(w, req, meta.value.email)
              else
                meta == None &&
                redis.typed == (if Miscounts(config, w, req) then MiscountedStore(w, SessionOf(w, sid).value.meta.email)
                                else old(redis.typed))
    {
      hide Represents, Consistent;
      var sessionKey := GetOTPSessionKey(sid);
      var stored := redis.Get(sessionKey, Session(sid));
      if stored.None? || !stored.value.OtpSession? {
        return None;
      }
      var data := stored.value.data;
      var email := data.meta.email;
      var attemptsKey := GetOTPAttemptsKey(email);
      var attempts := redis.GetInt(attemptsKey, Attempts(email));
      if attempts >= config.otpMaxVerifyAttempts {
        return None;
      }
      if data.hashedOtp == hmacFor(config.otpHmacSecret, email, code) {
        ThreeKeys(sid, email);
        redis.DelAll({sessionKey, attemptsKey, GetOTPRateKey(email)}, {Session(sid), Attempts(email), Rate(email)});
        return Some(data.meta);
      }
      redis.Incr(attemptsKey, Attempts(email));
      redis.Expire(attemptsKey, Attempts(email), HOUR);
      meta := None;
    }

    // ---- handler.go ----

    /**
     SendOTP, published as Kafka call c. A removed session's event is with nobody and never
     will be; a session reported as sent has its event in the broker's log.
     */
    method HandleSendOTP(firstName: string, lastName: string, email: string, password: string, confirm: string,
                         otp: string, sid: string, faults: Faults, c: KafkaProducer.CallId, sched: Schedule)
      returns (r: Response, out: KafkaProducer.Outcome)
      requires Valid() && KafkaProducer.Inv(kafka.Snapshot()) && c !in kafka.calls && LeavesToItself(sched, c)
      modifies redis, kafka
      ensures Valid() && KafkaProducer.Inv(kafka.Snapshot())
      ensures Reaches(old(kafka.Snapshot()), kafka.Snapshot())
      ensures (Now(), r) == Apply(config, old(Now()), SendOTP(firstName, lastName, email, password, confirm, otp, sid, faults, out))
      ensures if r.OtpSent? || r.StillProcessing? || r.QueueFailed? then
                KafkaProducer.At(kafka.Snapshot(), c, KafkaProducer.Returned(out))
              else kafka.Snapshot() == old(kafka.Snapshot())
      ensures r.OtpSent? || r.StillProcessing? ==> Session(sid) in redis.typed
      ensures r.OtpSent? ==> c in kafka.log
      ensures old(kafka.fatalErr).Some? || old(kafka.closing) ==> !r.OtpSent? && !r.StillProcessing?
      ensures r.QueueFailed? ==> c !in kafka.log && c !in kafka.queue && (!faults.remove ==> Session(sid) !in redis.typed)
    {
      out := KafkaProducer.Delivered;
      ghost var w := Now();
      ReachesByStep(kafka.Snapshot(), KafkaProducer.Cancel(c));
      hide Apply, Generates, Refusal, GeneratedStore, Reaches, KafkaProducer.Inv, LeavesToItself, Consistent, Represents;
      r := SendChecked(firstName, lastName, email, password, confirm, otp, sid, faults);
      if r.OtpSent? {
        r, out := PublishOTP(sid, faults.remove, c, sched);
      }
      SendWhole(config, w, SendOTP(firstName, lastName, email, password, confirm, otp, sid, faults, KafkaProducer.Delivered), out);
    }

    /** Publishes the code of a stored session and removes the session when publishing failed for good. */
    method PublishOTP(sid: string, removeFails: bool, c: KafkaProducer.CallId, sched: Schedule) returns (r: Response, out: KafkaProducer.Outcome)
      requires Valid() && KafkaProducer.Inv(kafka.Snapshot()) && c !in kafka.calls && LeavesToItself(sched, c)
      modifies redis, kafka
      ensures Valid() && redis.now == old(redis.now)
      ensures Published(kafka.Snapshot(), c, out) && Reaches(old(kafka.Snapshot()), kafka.Snapshot())
      ensures old(kafka.fatalErr).Some? || old(kafka.closing) ==> r.QueueFailed?
      ensures if out.Delivered? then r == OtpSent(sid) && redis.typed == old(redis.typed)
              else if out.ErrDeliveryUnknown? then r == StillProcessing && redis.typed == old(redis.typed)
              else r == QueueFailed && redis.typed == if removeFails then old(redis.typed) else Del(old(redis.typed), Session(sid))
    {
      var err;
      err, out := HandleSendPayload(kafka, c, sched);
      if err.None? {
        r := OtpSent(sid);
      } else if GoErrors.Is(err.value, GoErrors.DeliveryUnknown) {
        r := StillProcessing;
      } else {
        // A failed removal is only logged.
        var _ := RemoveStoredOTP(sid, removeFails);
        r := QueueFailed;
      }
    }

    /** Up to the point where the code is stored; OtpSent stands for "go on and publish". */
    method SendChecked(firstName: string, lastName: string, email: string, password: string, confirm: string,
                       otp: string, sid: string, faults: Faults) returns (r: Response)
      requires Valid()
      modifies redis
      ensures Valid() && redis.now == old(redis.now)
      ensures var req := SendOTP(firstName, lastName, email, password, confirm, otp, sid, faults, KafkaProducer.Delivered);
              && !r.StillProcessing? && !r.QueueFailed? && (r.OtpSent? <==> Generates(config, old(Now()), req))
              && (if r.OtpSent? then redis.typed == GeneratedStore(config, old(Now()), req) && Session(sid) in redis.typed
                  else redis.typed == old(redis.typed) && r == Refusal(config, old(Now()), req))
    {
      hide Represents, Consistent;
      if firstName == "" || lastName == "" || password == "" || email == "" || confirm == "" {
        return BadRequest;
      }
      if password != confirm {
        return PasswordMismatch;
      }
      if faults.lookup {
        return DatabaseFailed;
      }
      var existing := db.FirstUserByEmail(email);
      if existing.Some? {
        return AlreadyExists;
      }
      var hash := HashPassword(password);
      if hash.None? {
        return HashFailed;
      }
      var g := GenerateAndStoreOTP(Meta(firstName, lastName, email, hash.value), otp, sid, faults);
      match g {
        case TooMany => r := TooManyRequests;
        case NoCode => r := OtpFailed;
        case NotSaved => r := SaveFailed;
        case Stored => r := OtpSent(sid);
      }
    }

    method HandleVerifyOTP(code: string, sid: string, newId: string, c: KafkaProducer.CallId, sched: Schedule)
      returns (r: Response)
      requires Valid() && KafkaProducer.Inv(kafka.Snapshot()) && c !in kafka.calls && LeavesToItself(sched, c)
      modifies redis, db, kafka
      ensures Valid() && KafkaProducer.Inv(kafka.Snapshot()) && Reaches(old(kafka.Snapshot()), kafka.Snapshot())
      ensures (Now(), r) == Apply(config, old(Now()), VerifyOTP(code, sid, newId))
      ensures if r.Created? then exists out :: KafkaProducer.At(kafka.Snapshot(), c, KafkaProducer.Returned(out))
              else kafka.Snapshot() == old(kafka.Snapshot())
    {
      ReachesByStep(kafka.Snapshot(), KafkaProducer.Cancel(c));
      hide Apply, Reaches, KafkaProducer.Inv, LeavesToItself, Published, Consistent, Represents;
      r := VerifyAndCreate(code, sid, newId);
      if r.Created? {
        // The account exists; a failed welcome event is only logged.
        PublishWelcome(c, sched);
      }
    }

    method PublishWelcome(c: KafkaProducer.CallId, sched: Schedule)
      requires KafkaProducer.Inv(kafka.Snapshot()) && c !in kafka.calls && LeavesToItself(sched, c)
      modifies kafka
      ensures KafkaProducer.Inv(kafka.Snapshot()) && Reaches(old(kafka.Snapshot()), kafka.Snapshot())
      ensures exists out :: KafkaProducer.At(kafka.Snapshot(), c, KafkaProducer.Returned(out))
    {
      var _, out := HandleSendPayload(kafka, c, sched);
      assert KafkaProducer.At(kafka.Snapshot(), c, KafkaProducer.Returned(out));
    }

    method VerifyAndCreate(code: string, sid: string, newId: string) returns (r: Response)
      requires Valid()
      modifies redis, db
      ensures Valid() && (Now(), r) == Apply(config, old(Now()), VerifyOTP(code, sid, newId))
    {
      VerifyEffect(config, Now(), VerifyOTP(code, sid, newId));
      hide Apply, Compares, Consumes, Miscounts, ConsumedStore, MiscountedStore, SessionOf, InsertUser, NewUser,
           Consistent, Represents;
      if code == "" || sid == "" {
        return BadRequest;
      }
      var meta := VerifyAndConsumeOTP(code, sid, VerifyOTP(code, sid, newId));
      if meta.None? {
        return OtpRejected;
      }
      r := CreateAccount(meta.value, newId);
    }

    method CreateAccount(m: Meta, newId: string) returns (r: Response)
      requires Valid()
      modifies db
      ensures Valid()
      ensures match InsertUser(old(db.Rows()), NewUser(newId, m))
              case None => db.Rows() == old(db.Rows()) && r == CreateFailed
              case Some(rows) => db.Rows() == rows && r == Created(NewUser(newId, m))
    {
      var user := new User(m.firstName, m.lastName, m.email, Some(m.hashedPassword), true);
      var ok := db.CreateUser(user, newId);
      r := if ok then Created(user.Row()) else CreateFailed;
    }

    /** The session and cache writes that Login and Google sign-in end with. */
    method OpenSession(user: UserRow, device: string, jti: string) returns (r: Response)
      requires Valid() && ColonFree(device)
      modifies redis
      ensures Valid() && redis.now == old(redis.now)
      ensures redis.typed == SignedInStore(config, old(Now()), device, jti, Public(user))
      ensures r == SignedIn(GenerateAccessToken(user.id, config, redis.now),
                            GenerateRefreshToken(user.id, config, redis.now, jti), Public(user))
    {
      var access := GenerateAccessToken(user.id, config, redis.now);
      var refresh := GenerateRefreshToken(user.id, config, redis.now, jti);
      redis.Set(GetRefreshTokenKey(device, user.id), Refresh(device, user.id), Jti(jti), Seconds(config.refreshTokenExp));
      redis.Set(GetUserKey(user.id), Keys.User(user.id), CachedUser(Public(user)), Seconds(config.redisUserTTL));
      r := SignedIn(access, refresh, Public(user));
    }

    method HandleLogin(email: string, password: string, device: string, jti: string) returns (r: Response)
      requires Valid() && ColonFree(device)
      modifies redis
      ensures Valid() && (Now(), r) == Apply(config, old(Now()), Login(email, password, device, jti))
    {
      ghost var w, req := Now(), Login(email, password, device, jti);
      hide Represents, Consistent, StepSend, StepVerify, StepRotate, StepCache, StepGoogle, SignedInStore;
      if email == "" || password == "" {
        return BadRequest;
      }
      Unroll(config, w, req, LoginLookup);
      var found := db.FirstUserByEmail(email);
      if found.None? {
        return EmailNotFound;
      }
      var user := found.value;
      if user.password.None? || user.password.value != Bcrypt(password) {
        return IncorrectPassword;
      }
      SignInTail(config, w, req, user);
      r := OpenSession(user, device, jti);
    }

    method HandleRotateRefreshToken(token: Token, device: string, jti: string) returns (r: Response)
      requires Valid() && ColonFree(device)
      modifies redis
      ensures Valid() && (Now(), r) == Apply(config, old(Now()), Rotate(token, device, jti))
    {
      RotateEffect(config, Now(), Rotate(token, device, jti));
      hide Apply, VerifyRefreshToken, Represents, Consistent, GenerateAccessToken, GenerateRefreshToken;
      if token.Empty? {
        return Unauthorized;
      }
      var payload := VerifyRefreshToken(token, config, redis.now);
      if payload.None? {
        return TokenInvalid;
      }
      var userId := payload.value.userId;
      var key := GetRefreshTokenKey(device, userId);
      var stored := redis.Get(key, Refresh(device, userId));
      if stored.None? || !stored.value.Jti? || stored.value.jti == "" {
        return SessionExpired;
      }
      if stored.value.jti != payload.value.jti {
        redis.Del(key, Refresh(device, userId));
        return SessionExpired;
      }
      var access := GenerateAccessToken(userId, config, redis.now);
      var refresh := GenerateRefreshToken(userId, config, redis.now, jti);
      redis.Set(key, Refresh(device, userId), Jti(jti), Seconds(config.refreshTokenExp));
      r := Rotated(access, refresh);
    }

    /** The transaction of handleVerifyGoogleIDToken; None is its error. */
    method LinkGoogleUser(req: Request) returns (target: Option<UserRow>)
      requires Valid() && req.Google? && SignInFits(req, GoogleFindLink)
      modifies db
      ensures Valid() && (db.Rows(), target) == GoogleOutcome(old(db.Rows()), req)
    {
      var link := db.FirstLinkByIdentity(req.idToken.issuer, req.idToken.subject);
      if link.Some? {
        if link.value.userId !in db.users {
          return None;
        }
        return Some(db.users[link.value.userId]);
      }
      var existing := db.FirstUserByEmail(req.idToken.email.value);
      if existing.Some? {
        var linked := new AuthProvider(req.idToken.issuer, req.idToken.subject, existing.value.id);
        var ok := db.CreateLink(linked, req.linkId);
        return if ok then Some(existing.value) else None;
      }
      var user := new User(req.idToken.givenName, req.idToken.familyName, req.idToken.email.value, None, true);
      var provider := new AuthProvider(req.idToken.issuer, req.idToken.subject, "");
      var ok := db.CreateUserWithLink(user, provider, req.newId, req.linkId);
      target := if ok then Some(user.Row()) else None;
    }

    method HandleVerifyGoogleIDToken(idToken: GoogleToken, device: string, jti: string, newId: string, linkId: string)
      returns (r: Response)
      requires Valid() && ColonFree(device)
      modifies redis, db
      ensures Valid() && (Now(), r) == Apply(config, old(Now()), Google(idToken, device, jti, newId, linkId))
    {
      var req := Google(idToken, device, jti, newId, linkId);
      GoogleSignIn(config, Now(), req);
      hide Apply, GoogleOutcome, Represents, Consistent, SignedInStore, SignInFits, Public,
           GenerateAccessToken, GenerateRefreshToken, ColonFree;
      var refused := CheckClaims(idToken);
      if refused.Some? {
        return refused.value;
      }
      r := SignInWithGoogle(req);
    }

    /** The claim checks before the transaction; None lets the token through. */
    method CheckClaims(idToken: GoogleToken) returns (refused: Option<Response>)
      ensures refused.None? <==>
                idToken.Valid? && idToken.email.Some? && idToken.email.value != "" &&
                idToken.emailVerified == Some(true) && idToken.subject != ""
      ensures refused.Some? ==>
                refused.value == if idToken.Missing? || (idToken.Valid? && (idToken.email == None || idToken.email == Some("")))
                                 then BadRequest else Unauthorized
    {
      if idToken.Missing? {
        return Some(BadRequest);
      }
      if idToken.Invalid? {
        return Some(Unauthorized);
      }
      if idToken.email.None? || idToken.email.value == "" {
        return Some(BadRequest);
      }
      if idToken.emailVerified != Some(true) || idToken.subject == "" {
        return Some(Unauthorized);
      }
      refused := None;
    }

    /** The transaction and, for the account it resolves to, the session. */
    method SignInWithGoogle(req: Request) returns (r: Response)
      requires Valid() && req.Google? && SignInFits(req, GoogleFindLink) && ColonFree(req.device)
      modifies redis, db
      ensures Valid()
      ensures match GoogleOutcome(old(db.Rows()), req)
              case (_, None) => Now() == old(Now()) && r == TransactionFailed
              case (rows, Some(user)) =>
                && Now() == World(old(redis.now), SignedInStore(config, old(Now()), req.device, req.jti, Public(user)), rows)
                && r == SignedIn(GenerateAccessToken(user.id, config, redis.now),
                                 GenerateRefreshToken(user.id, config, redis.now, req.jti), Public(user))
    {
      FailureKeepsTables(db.Rows(), req);
      hide GoogleOutcome, Represents, Consistent, GenerateAccessToken, GenerateRefreshToken;
      var target := LinkGoogleUser(req);
      if target.None? {
        return TransactionFailed;
      }
      r := OpenSession(target.value, req.device, req.jti);
    }

    method HandleGetUser(userId: string, readable: bool, writable: bool) returns (r: Response)
      requires Valid()
      modifies redis
      ensures Valid() && (Now(), r) == Apply(config, old(Now()), GetUser(userId, readable, writable))
    {
      GetUserEffect(config, Now(), GetUser(userId, readable, writable));
      hide Apply;
      if userId == "" {
        return Unauthorized;
      }
      var userKey := GetUserKey(userId);
      if readable {
        var cached := redis.Get(userKey, Keys.User(userId));
        if cached.Some? && cached.value.CachedUser? {
          return Found(cached.value.profile);
        }
      }
      if userId !in db.users {
        return NotFound;
      }
      var profile := Public(db.users[userId]);
      if writable {
        redis.Set(userKey, Keys.User(userId), CachedUser(profile), Seconds(config.redisUserTTL));
      }
      r := Found(profile);
    }
  }

  lemma ThreeKeys(sid: string, email: string)
    ensures {GetOTPSessionKey(sid), GetOTPAttemptsKey(email), GetOTPRateKey(email)} ==
            set k | k in {Session(sid), Attempts(email), Rate(email)} :: Encode(k)
  {
    assert Encode(Session(sid)) == GetOTPSessionKey(sid) && Encode(Attempts(email)) == GetOTPAttemptsKey(email) &&
           Encode(Rate(email)) == GetOTPRateKey(email);
  }

  /** A whole signup call by what its checks and its Publish call came to. */
  lemma SendWhole(cfg: Config, w: World, req: Request, out: KafkaProducer.Outcome)
    requires req.SendOTP?
    ensures Apply(cfg, w, req.(publish := out)) ==
            if !Generates(cfg, w, req) then (w, Refusal(cfg, w, req))
            else
              var s := GeneratedStore(cfg, w, req);
              if out.Delivered? then (w.(store := s), OtpSent(req.sid))
              else if out.ErrDeliveryUnknown? then (w.(store := s), StillProcessing)
              else (w.(store := RemovedStore(s, req)), QueueFailed)
  {
    SendEffect(cfg, w, req.(publish := out));
    hide Apply;
  }
}
