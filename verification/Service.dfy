/**
 The RPC handlers of user-service at the granularity of single Redis and database commands.
 Step is one command of one call; Finish runs a call to its end without interruption and is
 what a handler does when calls are atomic. Values that the environment or a random source
 chooses (codes, UUIDs, what Publish returned, whether a command failed) are in the request.
 */
module Service {
  import opened Wrappers
  import opened GoTime
  import opened Model
  import opened Keys
  import opened TimedStore
  import opened Tables
  import KafkaProducer
  import GoErrors

  datatype World = World(now: int, store: Store, db: Db)

  /** A Google ID token after validation; missing or mistyped claims are None. */
  datatype GoogleToken =
    | Missing
    | Invalid
    | Valid(issuer: string, subject: string, email: Option<string>, givenName: string, familyName: string,
            emailVerified: Option<bool>)

  /** What fails around one signup: the email lookup, the random source, the SET of the session, its DEL. */
  datatype Faults = Faults(lookup: bool, random: bool, save: bool, remove: bool)

  const NO_FAULTS := Faults(false, false, false, false)

  datatype Request =
    | SendOTP(firstName: string, lastName: string, email: string, password: string, confirm: string,
              otp: string, sid: string, faults: Faults, publish: KafkaProducer.Outcome)
    | VerifyOTP(code: string, otpSid: string, newId: string)
    | Login(loginEmail: string, loginPassword: string, device: string, jti: string)
    | Rotate(token: Token, device: string, jti: string)
    | Google(idToken: GoogleToken, device: string, jti: string, newId: string, linkId: string)
    | GetUser(userId: string, readable: bool, writable: bool)

  datatype Response =
    | BadRequest | PasswordMismatch | Unauthorized
    | AlreadyExists | HashFailed | TooManyRequests | DatabaseFailed | OtpFailed | SaveFailed | OtpSent(otpSid: string) | StillProcessing | QueueFailed
    | OtpRejected | Created(user: UserRow) | CreateFailed
    | EmailNotFound | IncorrectPassword | SignedIn(access: Token, refresh: Token, profile: Profile)
    | TokenInvalid | SessionExpired | Rotated(access: Token, refresh: Token)
    | TransactionFailed
    | Found(profile: Profile) | NotFound

  /** The next command of a call; named after the handler line that issues it. */
  datatype Pc =
    | SendLookup | SendRate(hash: Hash) | SendSave(hash: Hash) | SendIncr | SendExpire | SendPublish | SendRemove
    | VerifySession | VerifyAttempts(data: SessionData) | VerifyConsume(meta: Meta)
    | VerifyCount(meta: Meta) | VerifyExpire(meta: Meta) | VerifyCreate(meta: Meta)
    | LoginLookup
    | GoogleFindLink | GoogleFindUser | GoogleLink(user: UserRow) | GoogleCreate
    | SignInRefresh(user: UserRow) | SignInCache(user: UserRow, access: Token, refresh: Token)
    | RotateRead | RotateRevoke(owner: string) | RotateStore(owner: string)
    | CacheGet | CacheLoad | CacheFill(profile: Profile)
    | Done(response: Response)

  /** The argument checks of service.go and the claim checks before any command. */
  function Start(req: Request): Pc {
    match req
    case SendOTP(first, last, email, password, confirm, _, _, _, _) =>
      if first == "" || last == "" || password == "" || email == "" || confirm == "" then Done(BadRequest)
      else if password != confirm then Done(PasswordMismatch)
      else SendLookup
    case VerifyOTP(code, sid, _) => if code == "" || sid == "" then Done(BadRequest) else VerifySession
    case Login(email, password, _, _) => if email == "" || password == "" then Done(BadRequest) else LoginLookup
    case Rotate(token, _, _) => if token.Empty? then Done(Unauthorized) else RotateRead
    case Google(idToken, _, _, _, _) =>
      if idToken.Missing? then Done(BadRequest)
      else if idToken.Invalid? then Done(Unauthorized)
      else if idToken.email.None? || idToken.email.value == "" then Done(BadRequest)
      else if idToken.emailVerified != Some(true) || idToken.subject == "" then Done(Unauthorized)
      else GoogleFindLink
    case GetUser(id, _, _) => if id == "" then Done(Unauthorized) else CacheGet
  }

  function MetaOf(req: Request, hash: Hash): Meta
    requires req.SendOTP?
  {
    Meta(req.firstName, req.lastName, req.email, hash)
  }

  // ---- handleSendOTP with GenerateAndStoreOTP and RemoveStoredOTP ----

  predicate SendPc(pc: Pc) {
    pc.SendLookup? || pc.SendRate? || pc.SendSave? || pc.SendIncr? || pc.SendExpire? || pc.SendPublish? || pc.SendRemove?
  }

  ghost function StepSend(cfg: Config, w: World, req: Request, pc: Pc): (World, Pc)
    requires req.SendOTP? && SendPc(pc)
  {
    match pc
    case SendLookup =>
      if req.faults.lookup then (w, Done(DatabaseFailed))
      else if UserByEmail(w.db, req.email).Some? then (w, Done(AlreadyExists))
      else (match HashPassword(req.password)
            case None => (w, Done(HashFailed))
            case Some(hash) => (w, SendRate(hash)))
    case SendRate(hash) =>
      if CountAt(w.store, Rate(req.email), w.now) >= cfg.otpRateMaxPerHour then (w, Done(TooManyRequests))
      else (w, SendSave(hash))
    case SendSave(hash) =>
      if req.faults.random then (w, Done(OtpFailed))
      else if req.faults.save then (w, Done(SaveFailed))
      else
        var data := SessionData(hmacFor(cfg.otpHmacSecret, req.email, req.otp), MetaOf(req, hash));
        (w.(store := Set(w.store, Session(req.sid), OtpSession(data), w.now, Seconds(cfg.otpTTL))), SendIncr)
    case SendIncr => (w.(store := Incr(w.store, Rate(req.email), w.now)), SendExpire)
    case SendExpire => (w.(store := Expire(w.store, Rate(req.email), w.now, HOUR)), SendPublish)
    case SendPublish =>
      if req.publish.Delivered? then (w, Done(OtpSent(req.sid)))
      else if GoErrors.Is(GoErrors.SendPayloadError(req.publish), GoErrors.DeliveryUnknown) then (w, Done(StillProcessing))
      else (w, SendRemove)
    case SendRemove =>
      ((if req.faults.remove then w else w.(store := Del(w.store, Session(req.sid)))), Done(QueueFailed))
  }

  // ---- handleVerifyOTP with VerifyAndConsumeOTP ----

  predicate VerifyPc(pc: Pc) {
    pc.VerifySession? || pc.VerifyAttempts? || pc.VerifyConsume? || pc.VerifyCount? || pc.VerifyExpire? || pc.VerifyCreate?
  }

  function NewUser(id: string, meta: Meta): UserRow {
    UserRow(id, meta.firstName, meta.lastName, meta.email, Some(meta.hashedPassword), true)
  }

  ghost function StepVerify(cfg: Config, w: World, req: Request, pc: Pc): (World, Pc)
    requires req.VerifyOTP? && VerifyPc(pc)
  {
    match pc
    case VerifySession =>
      (match Get(w.store, Session(req.otpSid), w.now)
       case Some(OtpSession(data)) => (w, VerifyAttempts(data))
       case _ => (w, Done(OtpRejected)))
    case VerifyAttempts(data) =>
      if CountAt(w.store, Attempts(data.meta.email), w.now) >= cfg.otpMaxVerifyAttempts then (w, Done(OtpRejected))
      else if data.hashedOtp == hmacFor(cfg.otpHmacSecret, data.meta.email, req.code) then (w, VerifyConsume(data.meta))
      else (w, VerifyCount(data.meta))
    case VerifyConsume(meta) =>
      (w.(store := DelAll(w.store, {Session(req.otpSid), Attempts(meta.email), Rate(meta.email)})), VerifyCreate(meta))
    case VerifyCount(meta) => (w.(store := Incr(w.store, Attempts(meta.email), w.now)), VerifyExpire(meta))
    case VerifyExpire(meta) => (w.(store := Expire(w.store, Attempts(meta.email), w.now, HOUR)), Done(OtpRejected))
    case VerifyCreate(meta) =>
      (match InsertUser(w.db, NewUser(req.newId, meta))
       case None => (w, Done(CreateFailed))
       case Some(db) => (w.(db := db), Done(Created(NewUser(req.newId, meta)))))
  }

  // ---- handleLogin, handleVerifyGoogleIDToken ----

  predicate SignInPc(pc: Pc) {
    pc.LoginLookup? || pc.GoogleFindLink? || pc.GoogleFindUser? || pc.GoogleLink? || pc.GoogleCreate? ||
    pc.SignInRefresh? || pc.SignInCache?
  }

  /** Which handler may be at which of these commands. */
  predicate SignInFits(req: Request, pc: Pc) {
    && (req.Login? || (req.Google? && req.idToken.Valid? && req.idToken.email.Some?))
    && (pc.LoginLookup? ==> req.Login?)
    && (pc.GoogleFindLink? || pc.GoogleFindUser? || pc.GoogleLink? || pc.GoogleCreate? ==> req.Google?)
  }

  function GoogleUser(req: Request): UserRow
    requires req.Google? && req.idToken.Valid? && req.idToken.email.Some?
  {
    UserRow(req.newId, req.idToken.givenName, req.idToken.familyName, req.idToken.email.value, None, true)
  }

  function GoogleLinkTo(req: Request, userId: string): LinkRow
    requires req.Google? && req.idToken.Valid?
  {
    LinkRow(req.linkId, req.idToken.issuer, req.idToken.subject, userId)
  }

  ghost function StepGoogle(cfg: Config, w: World, req: Request, pc: Pc): (World, Pc)
    requires SignInFits(req, pc) && (pc.GoogleFindLink? || pc.GoogleFindUser? || pc.GoogleLink? || pc.GoogleCreate?)
  {
    match pc
    case GoogleFindLink =>
      (match LinkByIdentity(w.db, req.idToken.issuer, req.idToken.subject)
       case Some(link) =>
         if link.userId in w.db.users then (w, SignInRefresh(w.db.users[link.userId])) else (w, Done(TransactionFailed))
       case None => (w, GoogleFindUser))
    case GoogleFindUser =>
      (match UserByEmail(w.db, req.idToken.email.value)
       case Some(user) => (w, GoogleLink(user))
       case None => (w, GoogleCreate))
    case GoogleLink(user) =>
      (match InsertLink(w.db, GoogleLinkTo(req, user.id))
       case None => (w, Done(TransactionFailed))
       case Some(db) => (w.(db := db), SignInRefresh(user)))
    case GoogleCreate =>
      (match InsertBoth(w.db, GoogleUser(req), GoogleLinkTo(req, req.newId))
       case None => (w, Done(TransactionFailed))
       case Some(db) => (w.(db := db), SignInRefresh(GoogleUser(req))))
  }

  ghost function StepSignIn(cfg: Config, w: World, req: Request, pc: Pc): (World, Pc)
    requires SignInPc(pc) && SignInFits(req, pc)
  {
    match pc
    case LoginLookup =>
      (match UserByEmail(w.db, req.loginEmail)
       case None => (w, Done(EmailNotFound))
       case Some(user) =>
         if user.password != Some(Bcrypt(req.loginPassword)) then (w, Done(IncorrectPassword))
         else (w, SignInRefresh(user)))
    case SignInRefresh(user) =>
      (w.(store := Set(w.store, Refresh(req.device, user.id), Jti(req.jti), w.now, Seconds(cfg.refreshTokenExp))),
       SignInCache(user, GenerateAccessToken(user.id, cfg, w.now), GenerateRefreshToken(user.id, cfg, w.now, req.jti)))
    case SignInCache(user, access, refresh) =>
      (w.(store := Set(w.store, User(user.id), CachedUser(Public(user)), w.now, Seconds(cfg.redisUserTTL))),
       Done(SignedIn(access, refresh, Public(user))))
    case _ => StepGoogle(cfg, w, req, pc)
  }

  // ---- handleRotateRefreshToken ----

  predicate RotatePc(pc: Pc) { pc.RotateRead? || pc.RotateRevoke? || pc.RotateStore? }

  function StepRotate(cfg: Config, w: World, req: Request, pc: Pc): (World, Pc)
    requires req.Rotate? && RotatePc(pc)
  {
    match pc
    case RotateRead =>
      (match VerifyRefreshToken(req.token, cfg, w.now)
       case None => (w, Done(TokenInvalid))
       case Some(claims) =>
         match Get(w.store, Refresh(req.device, claims.userId), w.now)
         case Some(Jti(stored)) =>
           if stored == "" then (w, Done(SessionExpired))
           else if stored != claims.jti then (w, RotateRevoke(claims.userId))
           else (w, RotateStore(claims.userId))
         case _ => (w, Done(SessionExpired)))
    case RotateRevoke(user) => (w.(store := Del(w.store, Refresh(req.device, user))), Done(SessionExpired))
    case RotateStore(user) =>
      (w.(store := Set(w.store, Refresh(req.device, user), Jti(req.jti), w.now, Seconds(cfg.refreshTokenExp))),
       Done(Rotated(GenerateAccessToken(user, cfg, w.now), GenerateRefreshToken(user, cfg, w.now, req.jti))))
  }

  // ---- handleGetUser ----

  predicate CachePc(pc: Pc) { pc.CacheGet? || pc.CacheLoad? || pc.CacheFill? }

  function StepCache(cfg: Config, w: World, req: Request, pc: Pc): (World, Pc)
    requires req.GetUser? && CachePc(pc)
  {
    match pc
    case CacheGet =>
      (match Get(w.store, User(req.userId), w.now)
       case Some(CachedUser(p)) => if req.readable then (w, Done(Found(p))) else (w, CacheLoad)
       case _ => (w, CacheLoad))
    case CacheLoad =>
      if req.userId in w.db.users then (w, CacheFill(Public(w.db.users[req.userId]))) else (w, Done(NotFound))
    case CacheFill(p) =>
      ((if req.writable then w.(store := Set(w.store, User(req.userId), CachedUser(p), w.now, Seconds(cfg.redisUserTTL)))
        else w), Done(Found(p)))
  }

  // ---- one command, one call ----

  /** The commands that a call of this request can be at. */
  predicate Fits(req: Request, pc: Pc) {
    || pc.Done?
    || (req.SendOTP? && SendPc(pc))
    || (req.VerifyOTP? && VerifyPc(pc))
    || (SignInPc(pc) && SignInFits(req, pc))
    || (req.Rotate? && RotatePc(pc))
    || (req.GetUser? && CachePc(pc))
  }

  ghost function Step(cfg: Config, w: World, req: Request, pc: Pc): (World, Pc)
    requires Fits(req, pc)
  {
    if pc.Done? then (w, pc)
    else if SendPc(pc) then StepSend(cfg, w, req, pc)
    else if VerifyPc(pc) then StepVerify(cfg, w, req, pc)
    else if SignInPc(pc) then StepSignIn(cfg, w, req, pc)
    else if RotatePc(pc) then StepRotate(cfg, w, req, pc)
    else StepCache(cfg, w, req, pc)
  }

  function Rank(pc: Pc): nat {
    match pc
    case Done(_) => 0
    case SendRemove => 1 case SendPublish => 2 case SendExpire => 3 case SendIncr => 4
    case SendSave(_) => 5 case SendRate(_) => 6 case SendLookup => 7
    case VerifyCreate(_) => 1 case VerifyExpire(_) => 1 case VerifyConsume(_) => 2 case VerifyCount(_) => 2
    case VerifyAttempts(_) => 3 case VerifySession => 4
    case SignInCache(_, _, _) => 1 case SignInRefresh(_) => 2 case LoginLookup => 3
    case GoogleLink(_) => 3 case GoogleCreate => 3 case GoogleFindUser => 4 case GoogleFindLink => 5
    case RotateRevoke(_) => 1 case RotateStore(_) => 1 case RotateRead => 2
    case CacheFill(_) => 1 case CacheLoad => 2 case CacheGet => 3
  }

  lemma StartFits(req: Request)
    ensures Fits(req, Start(req))
  {
  }

  lemma SendStepFits(cfg: Config, w: World, req: Request, pc: Pc)
    requires req.SendOTP? && SendPc(pc)
    ensures var (w', pc') := StepSend(cfg, w, req, pc);
            (pc'.Done? || SendPc(pc')) && Rank(pc') < Rank(pc) && w'.now == w.now
  {
  }

  lemma VerifyStepFits(cfg: Config, w: World, req: Request, pc: Pc)
    requires req.VerifyOTP? && VerifyPc(pc)
    ensures var (w', pc') := StepVerify(cfg, w, req, pc);
            (pc'.Done? || VerifyPc(pc')) && Rank(pc') < Rank(pc) && w'.now == w.now
  {
  }

  lemma SignInStepFits(cfg: Config, w: World, req: Request, pc: Pc)
    requires SignInPc(pc) && SignInFits(req, pc)
    ensures var (w', pc') := StepSignIn(cfg, w, req, pc);
            (pc'.Done? || (SignInPc(pc') && SignInFits(req, pc'))) && Rank(pc') < Rank(pc) && w'.now == w.now
  {
    if pc.GoogleFindLink? || pc.GoogleFindUser? || pc.GoogleLink? || pc.GoogleCreate? { GoogleStepFits(cfg, w, req, pc); }
    hide StepGoogle, UserByEmail;
  }

  lemma GoogleStepFits(cfg: Config, w: World, req: Request, pc: Pc)
    requires SignInFits(req, pc) && (pc.GoogleFindLink? || pc.GoogleFindUser? || pc.GoogleLink? || pc.GoogleCreate?)
    ensures var (w', pc') := StepGoogle(cfg, w, req, pc);
            (pc'.Done? || (SignInPc(pc') && SignInFits(req, pc'))) && Rank(pc') < Rank(pc) && w'.now == w.now
  {
    hide LinkByIdentity, UserByEmail, InsertLink, InsertBoth;
  }

  lemma RotateStepFits(cfg: Config, w: World, req: Request, pc: Pc)
    requires req.Rotate? && RotatePc(pc)
    ensures var (w', pc') := StepRotate(cfg, w, req, pc);
            (pc'.Done? || RotatePc(pc')) && Rank(pc') < Rank(pc) && w'.now == w.now
  {
  }

  lemma CacheStepFits(cfg: Config, w: World, req: Request, pc: Pc)
    requires req.GetUser? && CachePc(pc)
    ensures var (w', pc') := StepCache(cfg, w, req, pc);
            (pc'.Done? || CachePc(pc')) && Rank(pc') < Rank(pc) && w'.now == w.now
  {
  }

  lemma StepFits(cfg: Config, w: World, req: Request, pc: Pc)
    requires Fits(req, pc) && !pc.Done?
    ensures var (w', pc') := Step(cfg, w, req, pc);
            Fits(req, pc') && Rank(pc') < Rank(pc) && w'.now == w.now
  {
    if SendPc(pc) { SendStepFits(cfg, w, req, pc); }
    else if VerifyPc(pc) { VerifyStepFits(cfg, w, req, pc); }
    else if SignInPc(pc) { SignInStepFits(cfg, w, req, pc); }
    else if RotatePc(pc) { RotateStepFits(cfg, w, req, pc); }
    else { CacheStepFits(cfg, w, req, pc); }
  }

  /** The rest of a call, run without interruption. */
  ghost function Finish(cfg: Config, w: World, req: Request, pc: Pc): (World, Response)
    requires Fits(req, pc)
    decreases Rank(pc)
  {
    if pc.Done? then (w, pc.response)
    else
      StepFits(cfg, w, req, pc);
      var (w', pc') := Step(cfg, w, req, pc);
      Finish(cfg, w', req, pc')
  }

  /** A whole call as one atomic operation. */
  ghost function Apply(cfg: Config, w: World, req: Request): (World, Response) {
    StartFits(req);
    Finish(cfg, w, req, Start(req))
  }
}
