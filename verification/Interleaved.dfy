/**
 Any number of handler calls interleaved command by command, with time passing in between.
 The invariant ties every stored session, cached user and pending command to the requests
 that caused it and to the database.
 */
module Interleaved {
  import opened GoTime
  import opened Model
  import opened Keys
  import opened TimedStore
  import opened Tables
  import opened Service
  import KafkaProducer

  type CallId = nat

  datatype Sys = Sys(w: World, reqs: map<CallId, Request>, pcs: map<CallId, Pc>)

  datatype Action =
    | Begin(id: CallId, req: Request)
    | Advance(id: CallId, published: KafkaProducer.Outcome)
    | Tick(d: nat)

  /** OTP session ids are fresh UUIDs. */
  predicate FreshRequest(s: Sys, req: Request) {
    req.SendOTP? ==> forall t | t in s.reqs :: s.reqs[t].SendOTP? ==> s.reqs[t].sid != req.sid
  }

  /** One command of one call; what Publish returned is only known when it returns. */
  ghost function StepWith(cfg: Config, w: World, req: Request, pc: Pc, published: KafkaProducer.Outcome): (World, Pc)
    requires Fits(req, pc)
  {
    if pc.SendPublish? then StepSend(cfg, w, req.(publish := published), pc) else Step(cfg, w, req, pc)
  }

  ghost predicate Enabled(s: Sys, a: Action) {
    match a
    case Begin(id, req) => id !in s.reqs && id !in s.pcs && FreshRequest(s, req)
    case Advance(id, _) => id in s.reqs && id in s.pcs && Fits(s.reqs[id], s.pcs[id])
    case Tick(_) => true
  }

  ghost function Exec(cfg: Config, s: Sys, a: Action): Sys {
    if !Enabled(s, a) then s else
    match a
    case Begin(id, req) => s.(reqs := s.reqs[id := req], pcs := s.pcs[id := Start(req)])
    case Advance(id, published) =>
      var (w', pc') := StepWith(cfg, s.w, s.reqs[id], s.pcs[id], published);
      s.(w := w', pcs := s.pcs[id := pc'])
    case Tick(d) => s.(w := s.w.(now := s.w.now + d))
  }

  /** The action is a command of a call that has one left. */
  ghost predicate Commands(s: Sys, a: Action) {
    a.Advance? && Enabled(s, a) && !s.pcs[a.id].Done?
  }

  ghost function Run(cfg: Config, s: Sys, acts: seq<Action>): Sys {
    if acts == [] then s else Exec(cfg, Run(cfg, s, acts[..|acts| - 1]), acts[|acts| - 1])
  }

  /** No call yet, an empty Redis, and any database that satisfies its constraints. */
  ghost predicate Initial(s: Sys) {
    s.reqs == map[] && s.pcs == map[] && s.w.store == map[] && Consistent(s.w.db)
  }

  // ---- what the pieces of the state may be ----

  function DataOf(cfg: Config, req: Request): SessionData
    requires req.SendOTP?
  {
    SessionData(hmacFor(cfg.otpHmacSecret, req.email, req.otp), MetaOf(req, Bcrypt(req.password)))
  }

  /** Some SendOTP call stored this data under this session id. */
  ghost predicate SessionFrom(cfg: Config, reqs: map<CallId, Request>, sid: string, data: SessionData) {
    exists t | t in reqs :: reqs[t].SendOTP? && reqs[t].sid == sid && data == DataOf(cfg, reqs[t])
  }

  /** Some SendOTP call opened this session with this code and these signup details. */
  ghost predicate CodeFrom(reqs: map<CallId, Request>, sid: string, code: string, meta: Meta) {
    exists t | t in reqs :: reqs[t].SendOTP? && reqs[t].sid == sid && reqs[t].otp == code &&
                            meta == MetaOf(reqs[t], Bcrypt(reqs[t].password))
  }

  predicate KnownRow(db: Db, u: UserRow) { u.id in db.users && db.users[u.id] == u }

  predicate KnownProfile(db: Db, id: string, p: Profile) { id in db.users && p == Public(db.users[id]) }

  /** The Google identity of the request is linked to the user. */
  ghost predicate LinkedTo(db: Db, req: Request, userId: string)
    requires req.Google? && req.idToken.Valid?
  {
    exists l | l in db.links :: db.links[l].provider == req.idToken.issuer &&
      db.links[l].providerId == req.idToken.subject && db.links[l].userId == userId
  }

  /** The sign-in belongs to the account its request may open. */
  ghost predicate SignsInto(db: Db, req: Request, id: string, email: string) {
    || (req.Login? && req.loginEmail == email)
    || (req.Google? && req.idToken.Valid? && LinkedTo(db, req, id))
  }

  ghost predicate EntryOk(cfg: Config, db: Db, reqs: map<CallId, Request>, k: Key, v: Value) {
    match k
    case Rate(_) => v.Counter?
    case Attempts(_) => v.Counter?
    case Session(sid) => v.OtpSession? && SessionFrom(cfg, reqs, sid, v.data)
    case Refresh(_, _) => v.Jti?
    case User(id) => v.CachedUser? && KnownProfile(db, id, v.profile)
  }

  ghost predicate StoreOk(cfg: Config, db: Db, reqs: map<CallId, Request>, store: Store) {
    forall k | k in store :: EntryOk(cfg, db, reqs, k, store[k].value)
  }

  ghost predicate ResponseOk(cfg: Config, db: Db, reqs: map<CallId, Request>, req: Request, r: Response) {
    match r
    case Created(u) =>
      req.VerifyOTP? && KnownRow(db, u) && u.id == req.newId && u.password.Some? && u.emailVerified &&
      CodeFrom(reqs, req.otpSid, req.code, Meta(u.firstName, u.lastName, u.email, u.password.value))
    case SignedIn(_, _, p) => KnownProfile(db, p.id, p) && SignsInto(db, req, p.id, p.email)
    case Found(p) => req.GetUser? && KnownProfile(db, req.userId, p)
    case _ => true
  }

  ghost predicate PcOk(cfg: Config, db: Db, reqs: map<CallId, Request>, req: Request, pc: Pc) {
    && Fits(req, pc)
    && match pc
       case SendRate(hash) => hash == Bcrypt(req.password)
       case SendSave(hash) => hash == Bcrypt(req.password)
       case VerifyAttempts(data) => SessionFrom(cfg, reqs, req.otpSid, data)
       case VerifyConsume(meta) => CodeFrom(reqs, req.otpSid, req.code, meta)
       case VerifyCreate(meta) => CodeFrom(reqs, req.otpSid, req.code, meta)
       case GoogleLink(u) => KnownRow(db, u)
       case SignInRefresh(u) => KnownRow(db, u) && SignsInto(db, req, u.id, u.email)
       case SignInCache(u, _, _) => KnownRow(db, u) && SignsInto(db, req, u.id, u.email)
       case CacheFill(p) => KnownProfile(db, req.userId, p)
       case Done(r) => ResponseOk(cfg, db, reqs, req, r)
       case _ => true
  }

  ghost predicate CallsOk(cfg: Config, s: Sys) {
    && s.pcs.Keys == s.reqs.Keys
    && forall t | t in s.pcs :: PcOk(cfg, s.w.db, s.reqs, s.reqs[t], s.pcs[t])
  }

  ghost predicate SidsDistinct(s: Sys) {
    forall t, u | t in s.reqs && u in s.reqs && t != u && s.reqs[t].SendOTP? && s.reqs[u].SendOTP? ::
      s.reqs[t].sid != s.reqs[u].sid
  }

  predicate CreatedAt(s: Sys, t: CallId) {
    t in s.reqs && t in s.pcs && s.pcs[t].Done? && s.pcs[t].response.Created?
  }

  /** Two successful verifications created two rows. */
  ghost predicate CreationsDistinct(s: Sys) {
    forall t, u | t != u && CreatedAt(s, t) && CreatedAt(s, u) ::
      s.pcs[t].response.user.id != s.pcs[u].response.user.id
  }

  ghost predicate Inv(cfg: Config, s: Sys) {
    && Consistent(s.w.db) && StoreOk(cfg, s.w.db, s.reqs, s.w.store) && CallsOk(cfg, s)
    && SidsDistinct(s) && CreationsDistinct(s)
  }

  // ---- one command keeps it ----

  /** The state of one call and the shared world around a command. */
  ghost predicate Around(cfg: Config, w: World, reqs: map<CallId, Request>, req: Request, pc: Pc) {
    Consistent(w.db) && StoreOk(cfg, w.db, reqs, w.store) && PcOk(cfg, w.db, reqs, req, pc)
  }

  lemma StoreOkUpdate(cfg: Config, db: Db, reqs: map<CallId, Request>, store: Store, k: Key, e: Entry)
    requires StoreOk(cfg, db, reqs, store) && EntryOk(cfg, db, reqs, k, e.value)
    ensures StoreOk(cfg, db, reqs, store[k := e])
  {
  }

  lemma CommandsKeepStoreOk(cfg: Config, db: Db, reqs: map<CallId, Request>, store: Store, k: Key, now: int, ttl: int)
    requires StoreOk(cfg, db, reqs, store)
    ensures StoreOk(cfg, db, reqs, Del(store, k)) && StoreOk(cfg, db, reqs, Expire(store, k, now, ttl))
    ensures k.Rate? || k.Attempts? ==> StoreOk(cfg, db, reqs, Incr(store, k, now))
  {
  }

  lemma StoreOkGrows(cfg: Config, db: Db, db': Db, reqs: map<CallId, Request>, store: Store)
    requires Extends(db, db') && StoreOk(cfg, db, reqs, store)
    ensures StoreOk(cfg, db', reqs, store)
  {
  }

  lemma ExtendsItself(db: Db)
    ensures Extends(db, db)
  {
  }

  lemma SaveOk(cfg: Config, w: World, reqs: map<CallId, Request>, t: CallId, hash: Hash)
    requires t in reqs && reqs[t].SendOTP? && Around(cfg, w, reqs, reqs[t], SendSave(hash))
    ensures StoreOk(cfg, w.db, reqs, StepSend(cfg, w, reqs[t], SendSave(hash)).0.store)
  {
    var req := reqs[t];
    if !req.faults.random && !req.faults.save {
      assert SessionFrom(cfg, reqs, req.sid, DataOf(cfg, req));
      var k, w' := Session(req.sid), StepSend(cfg, w, req, SendSave(hash)).0;
      StoreOkUpdate(cfg, w.db, reqs, w.store, k, w'.store[k]);
    }
  }

  lemma SendStoreOk(cfg: Config, w: World, reqs: map<CallId, Request>, t: CallId, pc: Pc)
    requires t in reqs && reqs[t].SendOTP? && SendPc(pc) && Around(cfg, w, reqs, reqs[t], pc)
    ensures var w' := StepSend(cfg, w, reqs[t], pc).0;
            w'.db == w.db && StoreOk(cfg, w.db, reqs, w'.store)
  {
    var req := reqs[t];
    if pc.SendSave? {
      SaveOk(cfg, w, reqs, t, pc.hash);
    } else {
      CommandsKeepStoreOk(cfg, w.db, reqs, w.store, Rate(req.email), w.now, HOUR);
      CommandsKeepStoreOk(cfg, w.db, reqs, w.store, Session(req.sid), w.now, HOUR);
      hide StoreOk, PcOk;
    }
  }

  lemma StepSendOk(cfg: Config, w: World, reqs: map<CallId, Request>, t: CallId, pc: Pc)
    requires t in reqs && reqs[t].SendOTP? && SendPc(pc) && Around(cfg, w, reqs, reqs[t], pc)
    ensures var (w', pc') := StepSend(cfg, w, reqs[t], pc);
            Extends(w.db, w'.db) && Around(cfg, w', reqs, reqs[t], pc') && !(pc'.Done? && pc'.response.Created?)
  {
    hide StoreOk, Consistent, Extends, Del, Incr, Expire, Set, SessionFrom, CodeFrom, SignsInto, UserByEmail;
    SendStoreOk(cfg, w, reqs, t, pc);
    ExtendsItself(w.db);
  }

  lemma SendPublishOk(cfg: Config, w: World, reqs: map<CallId, Request>, t: CallId, published: KafkaProducer.Outcome)
    requires t in reqs && reqs[t].SendOTP? && Around(cfg, w, reqs, reqs[t], SendPublish)
    ensures var (w', pc') := StepSend(cfg, w, reqs[t].(publish := published), SendPublish);
            w' == w && Around(cfg, w', reqs, reqs[t], pc') && !(pc'.Done? && pc'.response.Created?)
  {
  }

  lemma MatchingCodeWasSent(cfg: Config, reqs: map<CallId, Request>, sid: string, code: string, data: SessionData)
    requires SessionFrom(cfg, reqs, sid, data)
    requires data.hashedOtp == hmacFor(cfg.otpHmacSecret, data.meta.email, code)
    ensures CodeFrom(reqs, sid, code, data.meta)
  {
    var t :| t in reqs && reqs[t].SendOTP? && reqs[t].sid == sid && data == DataOf(cfg, reqs[t]);
    MacAcceptsOnlyItsCode(cfg.otpHmacSecret, reqs[t].email, reqs[t].otp, code);
  }

  lemma VerifyReadsOk(cfg: Config, w: World, reqs: map<CallId, Request>, req: Request, pc: Pc)
    requires req.VerifyOTP? && (pc.VerifySession? || pc.VerifyAttempts?) && Around(cfg, w, reqs, req, pc)
    ensures var (w', pc') := StepVerify(cfg, w, req, pc);
            w' == w && PcOk(cfg, w.db, reqs, req, pc') && !(pc'.Done? && pc'.response.Created?)
  {
    match pc
    case VerifySession =>
      var k := Session(req.otpSid);
      assert k in w.store ==> EntryOk(cfg, w.db, reqs, k, w.store[k].value);
    case VerifyAttempts(data) =>
      if data.hashedOtp == hmacFor(cfg.otpHmacSecret, data.meta.email, req.code) {
        MatchingCodeWasSent(cfg, reqs, req.otpSid, req.code, data);
      }
  }

  lemma StepVerifyOk(cfg: Config, w: World, reqs: map<CallId, Request>, req: Request, pc: Pc)
    requires req.VerifyOTP? && VerifyPc(pc) && Around(cfg, w, reqs, req, pc)
    ensures var (w', pc') := StepVerify(cfg, w, req, pc);
            && Extends(w.db, w'.db) && Around(cfg, w', reqs, req, pc')
            && (pc'.Done? && pc'.response.Created? ==> pc'.response.user.id !in w.db.users)
  {
    var (w', pc') := StepVerify(cfg, w, req, pc);
    if pc.VerifySession? || pc.VerifyAttempts? {
      VerifyReadsOk(cfg, w, reqs, req, pc);
      ExtendsItself(w.db);
      hide StepVerify, StoreOk, PcOk, Extends, Consistent;
    } else if pc.VerifyCreate? {
      VerifyCreateOk(cfg, w, reqs, req, pc);
      hide *;
    } else {
      VerifyDeletesOk(cfg, w, reqs, req, pc);
      hide *;
    }
  }

  lemma VerifyCreateOk(cfg: Config, w: World, reqs: map<CallId, Request>, req: Request, pc: Pc)
    requires req.VerifyOTP? && pc.VerifyCreate? && Around(cfg, w, reqs, req, pc)
    ensures var (w', pc') := StepVerify(cfg, w, req, pc);
            && Extends(w.db, w'.db) && Around(cfg, w', reqs, req, pc')
            && (pc'.Done? && pc'.response.Created? ==> pc'.response.user.id !in w.db.users)
  {
    if InsertUser(w.db, NewUser(req.newId, pc.meta)).Some? {
      InsertUserKeepsConsistent(w.db, NewUser(req.newId, pc.meta));
      StoreOkGrows(cfg, w.db, StepVerify(cfg, w, req, pc).0.db, reqs, w.store);
    }
    ExtendsItself(w.db);
    hide StoreOk;
  }

  lemma VerifyDeletesOk(cfg: Config, w: World, reqs: map<CallId, Request>, req: Request, pc: Pc)
    requires req.VerifyOTP? && (pc.VerifyConsume? || pc.VerifyCount? || pc.VerifyExpire?) && Around(cfg, w, reqs, req, pc)
    ensures var (w', pc') := StepVerify(cfg, w, req, pc);
            Extends(w.db, w'.db) && Around(cfg, w', reqs, req, pc') && !(pc'.Done? && pc'.response.Created?)
  {
    ExtendsItself(w.db);
    CommandsKeepStoreOk(cfg, w.db, reqs, w.store, Attempts(pc.meta.email), w.now, HOUR);
    hide Consistent, Extends;
  }

  lemma FoundLinkIsLinked(db: Db, req: Request)
    requires Consistent(db) && req.Google? && req.idToken.Valid?
    requires LinkByIdentity(db, req.idToken.issuer, req.idToken.subject).Some?
    ensures LinkedTo(db, req, LinkByIdentity(db, req.idToken.issuer, req.idToken.subject).value.userId)
  {
  }

  lemma GoogleReadsOk(cfg: Config, w: World, reqs: map<CallId, Request>, req: Request, pc: Pc)
    requires SignInFits(req, pc) && (pc.GoogleFindLink? || pc.GoogleFindUser?) && Around(cfg, w, reqs, req, pc)
    ensures var (w', pc') := StepGoogle(cfg, w, req, pc);
            w' == w && PcOk(cfg, w.db, reqs, req, pc') && (pc'.Done? ==> pc'.response.TransactionFailed?)
  {
    if pc.GoogleFindLink? && LinkByIdentity(w.db, req.idToken.issuer, req.idToken.subject).Some? {
      FoundLinkIsLinked(w.db, req);
    }
  }

  lemma LinkAppears(db: Db, req: Request, l: LinkRow)
    requires req.Google? && req.idToken.Valid? && l == GoogleLinkTo(req, l.userId)
    requires l.id in db.links && db.links[l.id] == l
    ensures LinkedTo(db, req, l.userId)
  {
  }

  lemma GoogleLinkOk(cfg: Config, w: World, reqs: map<CallId, Request>, req: Request, pc: Pc)
    requires SignInFits(req, pc) && pc.GoogleLink? && Consistent(w.db) && KnownRow(w.db, pc.user)
    ensures var (w', pc') := StepGoogle(cfg, w, req, pc);
            && w'.store == w.store && Extends(w.db, w'.db) && Consistent(w'.db) && PcOk(cfg, w'.db, reqs, req, pc')
            && (pc'.Done? ==> pc'.response.TransactionFailed? && w' == w)
  {
    var l := GoogleLinkTo(req, pc.user.id);
    if InsertLink(w.db, l).Some? {
      InsertLinkKeepsConsistent(w.db, l);
      LinkAppears(InsertLink(w.db, l).value, req, l);
    }
  }

  lemma GoogleCreateOk(cfg: Config, w: World, reqs: map<CallId, Request>, req: Request)
    requires SignInFits(req, GoogleCreate) && Consistent(w.db)
    ensures var (w', pc') := StepGoogle(cfg, w, req, GoogleCreate);
            && w'.store == w.store && Extends(w.db, w'.db) && Consistent(w'.db) && PcOk(cfg, w'.db, reqs, req, pc')
            && (pc'.Done? ==> pc'.response.TransactionFailed? && w' == w)
  {
    var u, l := GoogleUser(req), GoogleLinkTo(req, req.newId);
    if InsertBoth(w.db, u, l).Some? {
      TransactionKeepsConsistent(w.db, u, l);
      LinkAppears(InsertBoth(w.db, u, l).value, req, l);
    }
  }

  lemma StepGoogleOk(cfg: Config, w: World, reqs: map<CallId, Request>, req: Request, pc: Pc)
    requires SignInFits(req, pc) && (pc.GoogleFindLink? || pc.GoogleFindUser? || pc.GoogleLink? || pc.GoogleCreate?)
    requires Around(cfg, w, reqs, req, pc)
    ensures var (w', pc') := StepGoogle(cfg, w, req, pc);
            && Extends(w.db, w'.db) && Around(cfg, w', reqs, req, pc')
            && (pc'.Done? ==> pc'.response.TransactionFailed?)
  {
    if pc.GoogleFindLink? || pc.GoogleFindUser? {
      GoogleReadsOk(cfg, w, reqs, req, pc);
    } else {
      if pc.GoogleLink? { GoogleLinkOk(cfg, w, reqs, req, pc); } else { GoogleCreateOk(cfg, w, reqs, req); }
      StoreOkGrows(cfg, w.db, StepGoogle(cfg, w, req, pc).0.db, reqs, w.store);
    }
  }

  lemma StepSignInOk(cfg: Config, w: World, reqs: map<CallId, Request>, req: Request, pc: Pc)
    requires SignInPc(pc) && SignInFits(req, pc) && Around(cfg, w, reqs, req, pc)
    ensures var (w', pc') := StepSignIn(cfg, w, req, pc);
            Extends(w.db, w'.db) && Around(cfg, w', reqs, req, pc') && !(pc'.Done? && pc'.response.Created?)
  {
    if pc.GoogleFindLink? || pc.GoogleFindUser? || pc.GoogleLink? || pc.GoogleCreate? {
      StepGoogleOk(cfg, w, reqs, req, pc);
      hide StepGoogle, Around, Extends;
    } else if pc.LoginLookup? {
      LoginLookupOk(cfg, w, reqs, req);
      hide *;
    } else {
      SignInWritesOk(cfg, w, reqs, req, pc);
      hide *;
    }
  }

  lemma LoginLookupOk(cfg: Config, w: World, reqs: map<CallId, Request>, req: Request)
    requires SignInFits(req, LoginLookup) && Around(cfg, w, reqs, req, LoginLookup)
    ensures var (w', pc') := StepSignIn(cfg, w, req, LoginLookup);
            Extends(w.db, w'.db) && Around(cfg, w', reqs, req, pc') && !(pc'.Done? && pc'.response.Created?)
  {
    hide StoreOk, StepGoogle;
  }

  lemma SignInWritesOk(cfg: Config, w: World, reqs: map<CallId, Request>, req: Request, pc: Pc)
    requires (pc.SignInRefresh? || pc.SignInCache?) && SignInFits(req, pc) && Around(cfg, w, reqs, req, pc)
    ensures var (w', pc') := StepSignIn(cfg, w, req, pc);
            Extends(w.db, w'.db) && Around(cfg, w', reqs, req, pc') && !(pc'.Done? && pc'.response.Created?)
  {
    hide StoreOk, StepGoogle, Consistent;
    var w' := StepSignIn(cfg, w, req, pc).0;
    ExtendsItself(w.db);
    var k := if pc.SignInRefresh? then Refresh(req.device, pc.user.id) else User(pc.user.id);
    StoreOkUpdate(cfg, w.db, reqs, w.store, k, w'.store[k]);
  }

  lemma StepRotateOk(cfg: Config, w: World, reqs: map<CallId, Request>, req: Request, pc: Pc)
    requires req.Rotate? && RotatePc(pc) && Around(cfg, w, reqs, req, pc)
    ensures var (w', pc') := StepRotate(cfg, w, req, pc);
            Extends(w.db, w'.db) && Around(cfg, w', reqs, req, pc') && !(pc'.Done? && pc'.response.Created?)
  {
    hide StoreOk, Consistent, Extends;
    ExtendsItself(w.db);
    var w' := StepRotate(cfg, w, req, pc).0;
    if !pc.RotateRead? {
      var k := Refresh(req.device, pc.owner);
      CommandsKeepStoreOk(cfg, w.db, reqs, w.store, k, w.now, 0);
      if pc.RotateStore? { StoreOkUpdate(cfg, w.db, reqs, w.store, k, w'.store[k]); }
    }
  }

  lemma CachedEntryOk(cfg: Config, db: Db, reqs: map<CallId, Request>, store: Store, id: string)
    requires StoreOk(cfg, db, reqs, store) && User(id) in store
    ensures store[User(id)].value.CachedUser? && KnownProfile(db, id, store[User(id)].value.profile)
  {
    assert EntryOk(cfg, db, reqs, User(id), store[User(id)].value);
  }

  lemma StepCacheOk(cfg: Config, w: World, reqs: map<CallId, Request>, req: Request, pc: Pc)
    requires req.GetUser? && CachePc(pc) && Around(cfg, w, reqs, req, pc)
    ensures var (w', pc') := StepCache(cfg, w, req, pc);
            Extends(w.db, w'.db) && Around(cfg, w', reqs, req, pc') && !(pc'.Done? && pc'.response.Created?)
  {
    if pc.CacheFill? {
      CacheFillOk(cfg, w, reqs, req, pc);
    } else {
      CacheReadsOk(cfg, w, reqs, req, pc);
      ExtendsItself(w.db);
    }
    hide *;
  }

  lemma CacheReadsOk(cfg: Config, w: World, reqs: map<CallId, Request>, req: Request, pc: Pc)
    requires req.GetUser? && (pc.CacheGet? || pc.CacheLoad?) && Around(cfg, w, reqs, req, pc)
    ensures var (w', pc') := StepCache(cfg, w, req, pc);
            w' == w && PcOk(cfg, w.db, reqs, req, pc') && !(pc'.Done? && pc'.response.Created?)
  {
    if User(req.userId) in w.store { CachedEntryOk(cfg, w.db, reqs, w.store, req.userId); }
    hide StoreOk, Consistent, SessionFrom, CodeFrom, SignsInto;
  }

  lemma CacheFillOk(cfg: Config, w: World, reqs: map<CallId, Request>, req: Request, pc: Pc)
    requires req.GetUser? && pc.CacheFill? && Around(cfg, w, reqs, req, pc)
    ensures var (w', pc') := StepCache(cfg, w, req, pc);
            Extends(w.db, w'.db) && Around(cfg, w', reqs, req, pc') && !(pc'.Done? && pc'.response.Created?)
  {
    hide StoreOk, Consistent, Extends, SessionFrom, CodeFrom, SignsInto;
    ExtendsItself(w.db);
    if req.writable {
      var k := User(req.userId);
      StoreOkUpdate(cfg, w.db, reqs, w.store, k, StepCache(cfg, w, req, pc).0.store[k]);
    }
  }

  lemma Dispatch(cfg: Config, w: World, req: Request, pc: Pc, published: KafkaProducer.Outcome)
    requires Fits(req, pc) && !pc.Done?
    ensures var r := StepWith(cfg, w, req, pc, published);
            && (SendPc(pc) ==> req.SendOTP? && r == StepSend(cfg, w, if pc.SendPublish? then req.(publish := published) else req, pc))
            && (VerifyPc(pc) ==> req.VerifyOTP? && r == StepVerify(cfg, w, req, pc))
            && (SignInPc(pc) ==> SignInFits(req, pc) && r == StepSignIn(cfg, w, req, pc))
            && (RotatePc(pc) ==> req.Rotate? && r == StepRotate(cfg, w, req, pc))
            && (!SendPc(pc) && !VerifyPc(pc) && !SignInPc(pc) && !RotatePc(pc) ==>
                  req.GetUser? && CachePc(pc) && r == StepCache(cfg, w, req, pc))
  {
    hide StepSend, StepVerify, StepSignIn, StepRotate, StepCache;
  }

  /** The Redis keys that a command may write. */
  function Footprint(req: Request, pc: Pc): set<Key> {
    match pc
    case SendSave(_) => if req.SendOTP? then {Session(req.sid)} else {}
    case SendRemove => if req.SendOTP? then {Session(req.sid)} else {}
    case SendIncr => if req.SendOTP? then {Rate(req.email)} else {}
    case SendExpire => if req.SendOTP? then {Rate(req.email)} else {}
    case VerifyConsume(meta) => if req.VerifyOTP? then {Session(req.otpSid), Attempts(meta.email), Rate(meta.email)} else {}
    case VerifyCount(meta) => {Attempts(meta.email)}
    case VerifyExpire(meta) => {Attempts(meta.email)}
    case SignInRefresh(user) => if req.Login? || req.Google? then {Refresh(req.device, user.id)} else {}
    case SignInCache(user, _, _) => {User(user.id)}
    case RotateRevoke(owner) => if req.Rotate? then {Refresh(req.device, owner)} else {}
    case RotateStore(owner) => if req.Rotate? then {Refresh(req.device, owner)} else {}
    case CacheFill(_) => if req.GetUser? then {User(req.userId)} else {}
    case _ => {}
  }

  lemma SendFootprint(cfg: Config, w: World, req: Request, pc: Pc, k: Key)
    requires req.SendOTP? && SendPc(pc) && k !in Footprint(req, pc)
    ensures SameEntry(w.store, StepSend(cfg, w, req, pc).0.store, k)
  {
    hide UserByEmail, HashPassword;
  }

  lemma VerifyFootprint(cfg: Config, w: World, req: Request, pc: Pc, k: Key)
    requires req.VerifyOTP? && VerifyPc(pc) && k !in Footprint(req, pc)
    ensures SameEntry(w.store, StepVerify(cfg, w, req, pc).0.store, k)
  {
    hide InsertUser, NewUser;
  }

  lemma SignInFootprint(cfg: Config, w: World, req: Request, pc: Pc, k: Key)
    requires SignInPc(pc) && SignInFits(req, pc) && k !in Footprint(req, pc)
    ensures SameEntry(w.store, StepSignIn(cfg, w, req, pc).0.store, k)
  {
    hide InsertBoth, InsertLink, UserByEmail, LinkByIdentity;
  }

  lemma RotateFootprint(cfg: Config, w: World, req: Request, pc: Pc, k: Key)
    requires req.Rotate? && RotatePc(pc) && k !in Footprint(req, pc)
    ensures SameEntry(w.store, StepRotate(cfg, w, req, pc).0.store, k)
  {
    hide VerifyRefreshToken;
  }

  lemma CacheFootprint(cfg: Config, w: World, req: Request, pc: Pc, k: Key)
    requires req.GetUser? && CachePc(pc) && k !in Footprint(req, pc)
    ensures SameEntry(w.store, StepCache(cfg, w, req, pc).0.store, k)
  {
  }

  /** A command leaves every key outside its footprint alone. */
  lemma CommandFootprint(cfg: Config, w: World, req: Request, pc: Pc, published: KafkaProducer.Outcome, k: Key)
    requires Fits(req, pc) && !pc.Done? && k !in Footprint(req, pc)
    ensures SameEntry(w.store, StepWith(cfg, w, req, pc, published).0.store, k)
  {
    Dispatch(cfg, w, req, pc, published);
    hide StepWith, StepSend, StepVerify, StepSignIn, StepRotate, StepCache, Fits;
    if SendPc(pc) { SendFootprint(cfg, w, if pc.SendPublish? then req.(publish := published) else req, pc, k); }
    else if VerifyPc(pc) { VerifyFootprint(cfg, w, req, pc, k); }
    else if SignInPc(pc) { SignInFootprint(cfg, w, req, pc, k); }
    else if RotatePc(pc) { RotateFootprint(cfg, w, req, pc, k); }
    else { CacheFootprint(cfg, w, req, pc, k); }
  }

  /** One command keeps the world's invariant and its own call's, and only adds rows. */
  lemma StepOk(cfg: Config, w: World, reqs: map<CallId, Request>, t: CallId, pc: Pc, published: KafkaProducer.Outcome)
    requires t in reqs && !pc.Done? && Fits(reqs[t], pc) && Around(cfg, w, reqs, reqs[t], pc)
    ensures var (w', pc') := StepWith(cfg, w, reqs[t], pc, published);
            && Extends(w.db, w'.db) && Around(cfg, w', reqs, reqs[t], pc')
            && (pc'.Done? && pc'.response.Created? ==> pc'.response.user.id !in w.db.users)
  {
    hide *;
    Dispatch(cfg, w, reqs[t], pc, published);
    ExtendsItself(w.db);
    if pc.SendPublish? { SendIsSend(pc); SendPublishOk(cfg, w, reqs, t, published); }
    else if SendPc(pc) { StepSendOk(cfg, w, reqs, t, pc); }
    else if VerifyPc(pc) { StepVerifyOk(cfg, w, reqs, reqs[t], pc); }
    else if SignInPc(pc) { StepSignInOk(cfg, w, reqs, reqs[t], pc); }
    else if RotatePc(pc) { StepRotateOk(cfg, w, reqs, reqs[t], pc); }
    else { StepCacheOk(cfg, w, reqs, reqs[t], pc); }
  }

  lemma SendIsSend(pc: Pc)
    ensures pc.SendPublish? ==> SendPc(pc)
  {
  }

  // ---- whole runs ----

  lemma PcOkGrows(cfg: Config, db: Db, db': Db, reqs: map<CallId, Request>, req: Request, pc: Pc)
    requires Extends(db, db') && PcOk(cfg, db, reqs, req, pc)
    ensures PcOk(cfg, db', reqs, req, pc)
  {
    if req.Google? && req.idToken.Valid? {
      forall id | LinkedTo(db, req, id) ensures LinkedTo(db', req, id) {
        var l :| l in db.links && db.links[l].provider == req.idToken.issuer &&
                 db.links[l].providerId == req.idToken.subject && db.links[l].userId == id;
        assert db'.links[l] == db.links[l];
      }
    }
  }

  lemma MoreRequests(cfg: Config, db: Db, reqs: map<CallId, Request>, id: CallId, req: Request, store: Store)
    requires id !in reqs
    ensures forall r, pc | PcOk(cfg, db, reqs, r, pc) :: PcOk(cfg, db, reqs[id := req], r, pc)
    ensures StoreOk(cfg, db, reqs, store) ==> StoreOk(cfg, db, reqs[id := req], store)
  {
    var more := reqs[id := req];
    assert forall t | t in reqs :: t in more && more[t] == reqs[t];
    forall sid, data | SessionFrom(cfg, reqs, sid, data) ensures SessionFrom(cfg, more, sid, data) {
      var t :| t in reqs && reqs[t].SendOTP? && reqs[t].sid == sid && data == DataOf(cfg, reqs[t]);
      assert more[t] == reqs[t];
    }
    forall sid, code, meta | CodeFrom(reqs, sid, code, meta) ensures CodeFrom(more, sid, code, meta) {
      var t :| t in reqs && reqs[t].SendOTP? && reqs[t].sid == sid && reqs[t].otp == code &&
               meta == MetaOf(reqs[t], Bcrypt(reqs[t].password));
      assert more[t] == reqs[t];
    }
  }

  lemma BeginKeepsInv(cfg: Config, s: Sys, id: CallId, req: Request)
    requires Inv(cfg, s) && Enabled(s, Begin(id, req))
    ensures Inv(cfg, Exec(cfg, s, Begin(id, req)))
  {
    hide PcOk, StoreOk, Consistent, Fits;
    MoreRequests(cfg, s.w.db, s.reqs, id, req, s.w.store);
    StartFits(req);
    var s' := Exec(cfg, s, Begin(id, req));
    StartOk(cfg, s.w.db, s'.reqs, req);
  }

  lemma StartOk(cfg: Config, db: Db, reqs: map<CallId, Request>, req: Request)
    ensures PcOk(cfg, db, reqs, req, Start(req)) && !(Start(req).Done? && Start(req).response.Created?)
  {
  }

  lemma AdvanceKeepsInv(cfg: Config, s: Sys, id: CallId, published: KafkaProducer.Outcome)
    requires Inv(cfg, s) && Enabled(s, Advance(id, published)) && !s.pcs[id].Done?
    ensures Inv(cfg, Exec(cfg, s, Advance(id, published)))
    ensures Extends(s.w.db, Exec(cfg, s, Advance(id, published)).w.db)
  {
    hide PcOk, StoreOk, Consistent, StepWith, ResponseOk, Fits;
    var s' := Exec(cfg, s, Advance(id, published));
    StepOk(cfg, s.w, s.reqs, id, s.pcs[id], published);
    forall t | t in s'.pcs ensures PcOk(cfg, s'.w.db, s'.reqs, s'.reqs[t], s'.pcs[t]) {
      if t != id { PcOkGrows(cfg, s.w.db, s'.w.db, s.reqs, s.reqs[t], s.pcs[t]); }
    }
    forall t | t != id && CreatedAt(s, t) ensures s.pcs[t].response.user.id in s.w.db.users {
      CreatedIsRow(cfg, s, t);
    }
  }

  lemma DoneIsOk(cfg: Config, s: Sys, t: CallId)
    requires CallsOk(cfg, s) && t in s.pcs && s.pcs[t].Done?
    ensures t in s.reqs && ResponseOk(cfg, s.w.db, s.reqs, s.reqs[t], s.pcs[t].response)
  {
    assert PcOk(cfg, s.w.db, s.reqs, s.reqs[t], s.pcs[t]);
    hide ResponseOk, Fits;
  }

  lemma CreatedIsRow(cfg: Config, s: Sys, t: CallId)
    requires CallsOk(cfg, s) && CreatedAt(s, t)
    ensures KnownRow(s.w.db, s.pcs[t].response.user)
    ensures ResponseOk(cfg, s.w.db, s.reqs, s.reqs[t], s.pcs[t].response)
  {
    DoneIsOk(cfg, s, t);
    hide CallsOk;
  }

  lemma InvKept(cfg: Config, s: Sys, a: Action)
    requires Inv(cfg, s)
    ensures Inv(cfg, Exec(cfg, s, a)) && Extends(s.w.db, Exec(cfg, s, a).w.db)
  {
    ExtendsItself(s.w.db);
    if Enabled(s, a) {
      if a.Begin? {
        BeginKeepsInv(cfg, s, a.id, a.req);
      } else if a.Advance? && !s.pcs[a.id].Done? {
        AdvanceKeepsInv(cfg, s, a.id, a.published);
      } else if a.Advance? {
        DoneStays(cfg, s, a.id, a.published);
      }
    }
    hide *;
  }

  lemma RequestsStay(cfg: Config, s: Sys, a: Action, t: CallId)
    ensures t in s.reqs ==> t in Exec(cfg, s, a).reqs && Exec(cfg, s, a).reqs[t] == s.reqs[t]
    ensures s.pcs.Keys == s.reqs.Keys ==> Exec(cfg, s, a).pcs.Keys == Exec(cfg, s, a).reqs.Keys
  {
    hide StepWith;
  }

  lemma StepKeepsTime(cfg: Config, w: World, req: Request, pc: Pc, published: KafkaProducer.Outcome)
    requires Fits(req, pc) && !pc.Done?
    ensures StepWith(cfg, w, req, pc, published).0.now == w.now
  {
    if pc.SendPublish? { SendStepFits(cfg, w, req.(publish := published), pc); } else { StepFits(cfg, w, req, pc); }
    hide Step, StepSend, Fits;
  }

  lemma TimeGoesOn(cfg: Config, s: Sys, a: Action)
    ensures s.w.now <= Exec(cfg, s, a).w.now
    ensures a.Advance? ==> Exec(cfg, s, a).w.now == s.w.now
  {
    if Enabled(s, a) && a.Advance? {
      if s.pcs[a.id].Done? { DoneStays(cfg, s, a.id, a.published); }
      else { StepKeepsTime(cfg, s.w, s.reqs[a.id], s.pcs[a.id], a.published); }
    }
    hide StepWith;
  }

  lemma DoneStays(cfg: Config, s: Sys, id: CallId, published: KafkaProducer.Outcome)
    requires Enabled(s, Advance(id, published)) && s.pcs[id].Done?
    ensures Exec(cfg, s, Advance(id, published)) == s
  {
    assert s.pcs[id := s.pcs[id]] == s.pcs;
  }

  lemma {:induction false} Reachable(cfg: Config, s: Sys, acts: seq<Action>)
    requires Inv(cfg, s)
    ensures Inv(cfg, Run(cfg, s, acts)) && Extends(s.w.db, Run(cfg, s, acts).w.db)
  {
    if acts == [] {
      ExtendsItself(s.w.db);
    } else {
      var front := acts[..|acts| - 1];
      Reachable(cfg, s, front);
      InvKept(cfg, Run(cfg, s, front), acts[|acts| - 1]);
    }
  }

  lemma InitialInv(cfg: Config, s: Sys)
    requires Initial(s)
    ensures Inv(cfg, s)
  {
  }

  /** The system before the i-th action of a run. */
  ghost function StateAt(cfg: Config, s0: Sys, acts: seq<Action>, i: nat): Sys
    requires i <= |acts|
  {
    if i == 0 then s0 else Exec(cfg, StateAt(cfg, s0, acts, i - 1), acts[i - 1])
  }

  lemma StateAtNext(cfg: Config, s0: Sys, acts: seq<Action>, i: nat)
    requires i < |acts|
    ensures StateAt(cfg, s0, acts, i + 1) == Exec(cfg, StateAt(cfg, s0, acts, i), acts[i])
  {
    hide Exec;
  }

  lemma {:induction false} StateAtIsRun(cfg: Config, s0: Sys, acts: seq<Action>, i: nat)
    requires i <= |acts|
    ensures StateAt(cfg, s0, acts, i) == Run(cfg, s0, acts[..i])
  {
    hide Exec;
    if i > 0 {
      StateAtIsRun(cfg, s0, acts, i - 1);
      assert acts[..i][..i - 1] == acts[..i - 1];
    }
  }
}
