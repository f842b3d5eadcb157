/** What each handler does to the store when its call is atomic, in closed form. */
module Atomic {
  import opened Wrappers
  import opened GoTime
  import opened Model
  import opened Keys
  import opened TimedStore
  import opened Tables
  import opened Service
  import GoErrors

  lemma Unroll(cfg: Config, w: World, req: Request, pc: Pc)
    requires Fits(req, pc) && !pc.Done?
    ensures var (w', pc') := Step(cfg, w, req, pc);
            Fits(req, pc') && Finish(cfg, w, req, pc) == Finish(cfg, w', req, pc')
  {
    StepFits(cfg, w, req, pc);
  }

  // ---- SendOTP ----

  /** Neither the random source nor the SET of the session fails. */
  predicate CanSave(req: Request)
    requires req.SendOTP?
  {
    !req.faults.random && !req.faults.save
  }

  /** What RemoveStoredOTP leaves. */
  function RemovedStore(store: Store, req: Request): Store
    requires req.SendOTP?
  {
    if req.faults.remove then store else Del(store, Session(req.sid))
  }

  /** A new code is generated and stored. */
  ghost predicate Generates(cfg: Config, w: World, req: Request) {
    && req.SendOTP? && Start(req).SendLookup?
    && !req.faults.lookup && UserByEmail(w.db, req.email).None? && HashPassword(req.password).Some?
    && CountAt(w.store, Rate(req.email), w.now) < cfg.otpRateMaxPerHour && CanSave(req)
  }

  /** The answer of a call that stores no code. */
  ghost function Refusal(cfg: Config, w: World, req: Request): Response
    requires req.SendOTP?
  {
    if Start(req).Done? then Start(req).response
    else if req.faults.lookup then DatabaseFailed
    else if UserByEmail(w.db, req.email).Some? then AlreadyExists
    else if HashPassword(req.password).None? then HashFailed
    else if CountAt(w.store, Rate(req.email), w.now) >= cfg.otpRateMaxPerHour then TooManyRequests
    else if req.faults.random then OtpFailed
    else SaveFailed
  }

  function GeneratedStore(cfg: Config, w: World, req: Request): Store
    requires req.SendOTP?
  {
    var data := SessionData(hmacFor(cfg.otpHmacSecret, req.email, req.otp), MetaOf(req, Bcrypt(req.password)));
    var s := Set(w.store, Session(req.sid), OtpSession(data), w.now, Seconds(cfg.otpTTL));
    Expire(Incr(s, Rate(req.email), w.now), Rate(req.email), w.now, HOUR)
  }

  lemma SendTail(cfg: Config, w: World, req: Request)
    requires req.SendOTP?
    ensures var (w', r) := Finish(cfg, w, req, SendPublish);
            if req.publish.Delivered? then w' == w && r == OtpSent(req.sid)
            else if req.publish.ErrDeliveryUnknown? then w' == w && r == StillProcessing
            else w' == w.(store := RemovedStore(w.store, req)) && r == QueueFailed
  {
    hide StepVerify, StepSignIn, StepRotate, StepCache;
    Unroll(cfg, w, req, SendPublish);
    if !req.publish.Delivered? {
      GoErrors.ErrorsIsDeliveryUnknown(req.publish);
      if !req.publish.ErrDeliveryUnknown? { Unroll(cfg, w, req, SendRemove); }
    }
  }

  /** The session survives exactly when Publish returned nil or ErrDeliveryUnknown; the counter stays either way. */
  lemma SendEffect(cfg: Config, w: World, req: Request)
    requires req.SendOTP?
    ensures var (w', r) := Apply(cfg, w, req);
            if !Generates(cfg, w, req) then w' == w && r == Refusal(cfg, w, req)
            else
              && w'.db == w.db && w'.now == w.now
              && (if req.publish.Delivered? then w'.store == GeneratedStore(cfg, w, req) && r == OtpSent(req.sid)
                  else if req.publish.ErrDeliveryUnknown? then
                    w'.store == GeneratedStore(cfg, w, req) && r == StillProcessing
                  else w'.store == RemovedStore(GeneratedStore(cfg, w, req), req) && r == QueueFailed)
  {
    hide StepVerify, StepSignIn, StepRotate, StepCache;
    if Start(req).SendLookup? {
      Unroll(cfg, w, req, SendLookup);
      if !req.faults.lookup && UserByEmail(w.db, req.email).None? && HashPassword(req.password).Some? {
        var hash := Bcrypt(req.password);
        Unroll(cfg, w, req, SendRate(hash));
        if CountAt(w.store, Rate(req.email), w.now) < cfg.otpRateMaxPerHour {
          Unroll(cfg, w, req, SendSave(hash));
          if CanSave(req) {
            SendStored(cfg, w, req);
          }
        }
      }
    }
  }

  lemma SendStored(cfg: Config, w: World, req: Request)
    requires req.SendOTP? && CanSave(req)
    ensures Finish(cfg, w, req, SendSave(Bcrypt(req.password))) ==
            Finish(cfg, w.(store := GeneratedStore(cfg, w, req)), req, SendPublish)
    ensures var w2 := w.(store := GeneratedStore(cfg, w, req));
            var (w', r) := Finish(cfg, w2, req, SendPublish);
            if req.publish.Delivered? then w' == w2 && r == OtpSent(req.sid)
            else if req.publish.ErrDeliveryUnknown? then w' == w2 && r == StillProcessing
            else w' == w2.(store := RemovedStore(w2.store, req)) && r == QueueFailed
  {
    hide StepVerify, StepSignIn, StepRotate, StepCache;
    var hash := Bcrypt(req.password);
    var w0 := Step(cfg, w, req, SendSave(hash)).0;
    var w1 := Step(cfg, w0, req, SendIncr).0;
    Unroll(cfg, w, req, SendSave(hash));
    Unroll(cfg, w0, req, SendIncr);
    Unroll(cfg, w1, req, SendExpire);
    SendTail(cfg, w.(store := GeneratedStore(cfg, w, req)), req);
  }

  // ---- VerifyOTP ----

  /** The session that a verification finds. */
  function SessionOf(w: World, sid: string): Option<SessionData> {
    match Get(w.store, Session(sid), w.now)
    case Some(OtpSession(data)) => Some(data)
    case _ => None
  }

  /** The call reaches the comparison of codes. */
  predicate Compares(cfg: Config, w: World, req: Request) {
    && req.VerifyOTP? && Start(req).VerifySession? && SessionOf(w, req.otpSid).Some?
    && CountAt(w.store, Attempts(SessionOf(w, req.otpSid).value.meta.email), w.now) < cfg.otpMaxVerifyAttempts
  }

  predicate Consumes(cfg: Config, w: World, req: Request) {
    Compares(cfg, w, req) &&
    var data := SessionOf(w, req.otpSid).value;
    data.hashedOtp == hmacFor(cfg.otpHmacSecret, data.meta.email, req.code)
  }

  predicate Miscounts(cfg: Config, w: World, req: Request) {
    Compares(cfg, w, req) && !Consumes(cfg, w, req)
  }

  function ConsumedStore(w: World, req: Request, email: string): Store
    requires req.VerifyOTP?
  {
    DelAll(w.store, {Session(req.otpSid), Attempts(email), Rate(email)})
  }

  function MiscountedStore(w: World, email: string): Store {
    Expire(Incr(w.store, Attempts(email), w.now), Attempts(email), w.now, HOUR)
  }

  /** A right code consumes the session and both counters, a wrong one only raises the attempts of its email. */
  lemma VerifyEffect(cfg: Config, w: World, req: Request)
    requires req.VerifyOTP?
    ensures var (w', r) := Apply(cfg, w, req);
            && w'.now == w.now
            && (if Consumes(cfg, w, req) then
                  var meta := SessionOf(w, req.otpSid).value.meta;
                  && w'.store == ConsumedStore(w, req, meta.email)
                  && (match InsertUser(w.db, NewUser(req.newId, meta))
                      case None => w'.db == w.db && r == CreateFailed
                      case Some(db) => w'.db == db && r == Created(NewUser(req.newId, meta)))
                else if Miscounts(cfg, w, req) then
                  w' == w.(store := MiscountedStore(w, SessionOf(w, req.otpSid).value.meta.email)) && r == OtpRejected
                else w' == w && r == if Start(req).Done? then BadRequest else OtpRejected)
  {
    hide StepSend, StepSignIn, StepRotate, StepCache, InsertUser, NewUser, SignInFits;
    if Start(req).VerifySession? {
      Unroll(cfg, w, req, VerifySession);
      if SessionOf(w, req.otpSid).Some? {
        var data := SessionOf(w, req.otpSid).value;
        Unroll(cfg, w, req, VerifyAttempts(data));
        if Consumes(cfg, w, req) {
          Unroll(cfg, w, req, VerifyConsume(data.meta));
          Unroll(cfg, Step(cfg, w, req, VerifyConsume(data.meta)).0, req, VerifyCreate(data.meta));
        } else if Miscounts(cfg, w, req) {
          Unroll(cfg, w, req, VerifyCount(data.meta));
          Unroll(cfg, Step(cfg, w, req, VerifyCount(data.meta)).0, req, VerifyExpire(data.meta));
        }
      }
    }
  }

  // ---- sign-in ----

  function SignedInStore(cfg: Config, w: World, device: string, jti: string, p: Profile): Store {
    Set(Set(w.store, Refresh(device, p.id), Jti(jti), w.now, Seconds(cfg.refreshTokenExp)),
        User(p.id), CachedUser(p), w.now, Seconds(cfg.redisUserTTL))
  }

  lemma SignInTail(cfg: Config, w: World, req: Request, user: UserRow)
    requires Fits(req, SignInRefresh(user))
    ensures Finish(cfg, w, req, SignInRefresh(user)) ==
            (w.(store := SignedInStore(cfg, w, req.device, req.jti, Public(user))),
             SignedIn(GenerateAccessToken(user.id, cfg, w.now), GenerateRefreshToken(user.id, cfg, w.now, req.jti), Public(user)))
  {
    hide StepSend, StepVerify, StepRotate, StepCache, StepGoogle;
    Unroll(cfg, w, req, SignInRefresh(user));
    var (w1, pc1) := Step(cfg, w, req, SignInRefresh(user));
    Unroll(cfg, w1, req, pc1);
  }

  /** The three cases of the Google transaction: the tables after it and the account it resolves to, or None for its error. */
  ghost function GoogleOutcome(db: Db, req: Request): (Db, Option<UserRow>)
    requires SignInFits(req, GoogleFindLink)
  {
    match LinkByIdentity(db, req.idToken.issuer, req.idToken.subject)
    case Some(link) => (db, if link.userId in db.users then Some(db.users[link.userId]) else None)
    case None =>
      match UserByEmail(db, req.idToken.email.value)
      case Some(user) =>
        (match InsertLink(db, GoogleLinkTo(req, user.id))
         case None => (db, None)
         case Some(db') => (db', Some(user)))
      case None =>
        match InsertBoth(db, GoogleUser(req), GoogleLinkTo(req, req.newId))
        case None => (db, None)
        case Some(db') => (db', Some(GoogleUser(req)))
  }

  /** A failed transaction changes no table. */
  lemma FailureKeepsTables(db: Db, req: Request)
    requires SignInFits(req, GoogleFindLink)
    ensures GoogleOutcome(db, req).1.None? ==> GoogleOutcome(db, req).0 == db
  {
  }

  lemma GoogleEffect(cfg: Config, w: World, req: Request)
    requires SignInFits(req, GoogleFindLink)
    ensures var (db, target) := GoogleOutcome(w.db, req);
            Finish(cfg, w, req, GoogleFindLink) ==
              match target
              case None => (w, TransactionFailed)
              case Some(user) => Finish(cfg, w.(db := db), req, SignInRefresh(user))
  {
    hide StepSend, StepVerify, StepRotate, StepCache, InsertLink, InsertBoth, LinkByIdentity, UserByEmail;
    Unroll(cfg, w, req, GoogleFindLink);
    var (w1, pc1) := Step(cfg, w, req, GoogleFindLink);
    if pc1.GoogleFindUser? {
      Unroll(cfg, w, req, GoogleFindUser);
      var (w2, pc2) := Step(cfg, w, req, GoogleFindUser);
      Unroll(cfg, w, req, pc2);
    }
  }

  /** A token that passes the claim checks runs the transaction, and then signs in to the account it resolved to. */
  lemma GoogleSignIn(cfg: Config, w: World, req: Request)
    requires req.Google?
    ensures !Start(req).GoogleFindLink? ==> Start(req).Done? && Apply(cfg, w, req) == (w, Start(req).response)
    ensures Start(req).GoogleFindLink? ==>
              && SignInFits(req, GoogleFindLink)
              && Apply(cfg, w, req) ==
                   match GoogleOutcome(w.db, req)
                   case (_, None) => (w, TransactionFailed)
                   case (db, Some(user)) =>
                     (World(w.now, SignedInStore(cfg, w, req.device, req.jti, Public(user)), db),
                      SignedIn(GenerateAccessToken(user.id, cfg, w.now), GenerateRefreshToken(user.id, cfg, w.now, req.jti),
                               Public(user)))
  {
    hide Step, GoogleOutcome, GenerateAccessToken, GenerateRefreshToken;
    if Start(req).GoogleFindLink? {
      GoogleEffect(cfg, w, req);
      var (db, target) := GoogleOutcome(w.db, req);
      if target.Some? { SignInTail(cfg, w.(db := db), req, target.value); }
    }
  }

  /** A sign-in that succeeds opens the slot of its device and user with its JTI; a failed one leaves the store alone. */
  lemma SignInEffect(cfg: Config, w: World, req: Request)
    requires req.Login? || req.Google?
    ensures var (w', r) := Apply(cfg, w, req);
            && w'.now == w.now
            && (if r.SignedIn? then
                  && w'.store == SignedInStore(cfg, w, req.device, req.jti, r.profile)
                  && r.refresh == GenerateRefreshToken(r.profile.id, cfg, w.now, req.jti)
                else w' == w)
            && !r.Rotated?
  {
    hide StepSend, StepVerify, StepRotate, StepCache, StepGoogle, GoogleOutcome;
    if req.Google? {
      GoogleSignIn(cfg, w, req);
    } else if Start(req).LoginLookup? {
      Unroll(cfg, w, req, LoginLookup);
      var (w1, pc1) := Step(cfg, w, req, LoginLookup);
      if pc1.SignInRefresh? { SignInTail(cfg, w1, req, pc1.user); }
    }
  }

  // ---- rotation ----

  /** What a rotation finds in the slot of its device and of the user its token names. */
  predicate SlotHolds(w: World, device: string, userId: string, jti: string) {
    Get(w.store, Refresh(device, userId), w.now) == Some(Jti(jti))
  }

  predicate SlotLive(w: World, device: string, userId: string) {
    match Get(w.store, Refresh(device, userId), w.now)
    case Some(Jti(j)) => j != ""
    case _ => false
  }

  /**
   A verified token rotates exactly when its JTI is the live one of the slot; any other
   verified token leaves the slot without a live JTI.
   */
  lemma RotateEffect(cfg: Config, w: World, req: Request)
    requires req.Rotate?
    ensures var (w', r) := Apply(cfg, w, req);
            && w'.now == w.now && w'.db == w.db
            && (match VerifyRefreshToken(req.token, cfg, w.now)
                case None => w' == w && r == if req.token.Empty? then Unauthorized else TokenInvalid
                case Some(c) =>
                  var k := Refresh(req.device, c.userId);
                  if c.jti != "" && SlotHolds(w, req.device, c.userId, c.jti) then
                    && w'.store == Set(w.store, k, Jti(req.jti), w.now, Seconds(cfg.refreshTokenExp))
                    && r == Rotated(GenerateAccessToken(c.userId, cfg, w.now), GenerateRefreshToken(c.userId, cfg, w.now, req.jti))
                  else
                    && r == SessionExpired
                    && w' == (if SlotLive(w, req.device, c.userId) then w.(store := Del(w.store, k)) else w)
                    && (forall j | j != "" :: !SlotHolds(w', req.device, c.userId, j)))
  {
    hide StepSend, StepVerify, StepSignIn, StepCache;
    if Start(req).RotateRead? {
      Unroll(cfg, w, req, RotateRead);
      var (w1, pc1) := Step(cfg, w, req, RotateRead);
      if !pc1.Done? { Unroll(cfg, w, req, pc1); }
    }
  }

  // ---- lookup ----

  function LookedUp(cfg: Config, w: World, userId: string, readable: bool, writable: bool): (World, Response) {
    var cached := Get(w.store, User(userId), w.now);
    if userId == "" then (w, Unauthorized)
    else if readable && cached.Some? && cached.value.CachedUser? then (w, Found(cached.value.profile))
    else if userId !in w.db.users then (w, NotFound)
    else
      var p := Public(w.db.users[userId]);
      (if writable then w.(store := Set(w.store, User(userId), CachedUser(p), w.now, Seconds(cfg.redisUserTTL))) else w,
       Found(p))
  }

  lemma GetUserEffect(cfg: Config, w: World, req: Request)
    requires req.GetUser?
    ensures Apply(cfg, w, req) == LookedUp(cfg, w, req.userId, req.readable, req.writable)
  {
    hide StepSend, StepVerify, StepSignIn, StepRotate, SignInFits;
    if Start(req).CacheGet? {
      Unroll(cfg, w, req, CacheGet);
      var (w1, pc1) := Step(cfg, w, req, CacheGet);
      if pc1.CacheLoad? {
        Unroll(cfg, w, req, CacheLoad);
        if req.userId in w.db.users {
          Unroll(cfg, w, req, CacheFill(Public(w.db.users[req.userId])));
        }
      }
    }
  }
}
