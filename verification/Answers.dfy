/**
 Which call gets which answer, on the fields of its request and the rows and counters it
 finds: the argument checks in every interleaving, the lookup that starts a signup, and the
 signups, verifications and Google sign-ins that run as one.
 */
module Answers {
  import opened Wrappers
  import opened GoTime
  import opened Model
  import opened Keys
  import opened TimedStore
  import opened Tables
  import opened Service
  import opened Interleaved
  import opened Origins
  import Accounts
  import Atomic
  import KafkaProducer
  import Logins

  // ---- arguments ----

  /** The answer to a request whose arguments or claims are refused, None for any other. */
  predicate ArgumentsRefused(req: Request, r: Response) {
    match req
    case SendOTP(first, last, email, password, confirm, _, _, _, _) =>
      if "" in {first, last, email, password, confirm} then r.BadRequest? else password != confirm && r.PasswordMismatch?
    case VerifyOTP(code, sid, _) => "" in {code, sid} && r.BadRequest?
    case Login(email, password, _, _) => "" in {email, password} && r.BadRequest?
    case Rotate(token, _, _) => token.Empty? && r.Unauthorized?
    case Google(token, _, _, _, _) => !GoodClaims(token) && if LacksEmail(token) then r.BadRequest? else r.Unauthorized?
    case GetUser(id, _, _) => id == "" && r.Unauthorized?
  }

  /** Only the argument checks give these answers. */
  predicate ArgumentAnswer(r: Response) { r.BadRequest? || r.PasswordMismatch? || r.Unauthorized? }

  ghost predicate AnsweredForArguments(req: Request, pc: Pc) {
    forall r | ArgumentAnswer(r) :: pc == Done(r) <==> ArgumentsRefused(req, r)
  }

  lemma StartAnswers(req: Request)
    ensures AnsweredForArguments(req, Start(req))
    ensures Start(req).Done? ==> ArgumentAnswer(Start(req).response)
  {
  }

  lemma CommandsPassArguments(cfg: Config, w: World, req: Request, pc: Pc, published: KafkaProducer.Outcome)
    requires Fits(req, pc) && !pc.Done?
    ensures var pc' := StepWith(cfg, w, req, pc, published).1; !(pc'.Done? && ArgumentAnswer(pc'.response))
  {
    Dispatch(cfg, w, req, pc, published);
    hide StepWith;
  }

  ghost predicate ArgumentsChecked(s: Sys) {
    s.pcs.Keys == s.reqs.Keys && forall t | t in s.pcs :: AnsweredForArguments(s.reqs[t], s.pcs[t])
  }

  lemma ActionKeepsAnswers(cfg: Config, s: Sys, a: Action)
    requires ArgumentsChecked(s)
    ensures ArgumentsChecked(Exec(cfg, s, a))
  {
    hide StepWith, Fits, FreshRequest, Start, ArgumentsRefused, ArgumentAnswer;
    RequestsStay(cfg, s, a, 0);
    if Enabled(s, a) {
      if a.Begin? { StartAnswers(a.req); }
      else if a.Advance? && s.pcs[a.id].Done? { DoneStays(cfg, s, a.id, a.published); }
      else if a.Advance? {
        assert AnsweredForArguments(s.reqs[a.id], s.pcs[a.id]);
        CommandsPassArguments(cfg, s.w, s.reqs[a.id], s.pcs[a.id], a.published);
      }
    }
  }

  lemma {:induction false} ArgumentsAreChecked(cfg: Config, s0: Sys, acts: seq<Action>)
    requires Initial(s0)
    ensures ArgumentsChecked(Run(cfg, s0, acts))
  {
    hide Exec, AnsweredForArguments;
    if acts != [] {
      ArgumentsAreChecked(cfg, s0, acts[..|acts| - 1]);
      ActionKeepsAnswers(cfg, Run(cfg, s0, acts[..|acts| - 1]), acts[|acts| - 1]);
    }
  }

  /**
   In every reachable state a call has been refused for its arguments or claims exactly when
   they call for it, with exactly the answer for that; and such a call never changes anything.
   */
  lemma RefusedAtOnceExactly(cfg: Config, s0: Sys, acts: seq<Action>, t: CallId, r: Response, published: KafkaProducer.Outcome)
    requires Initial(s0) && t in Run(cfg, s0, acts).reqs && ArgumentAnswer(r)
    ensures var s := Run(cfg, s0, acts);
            && t in s.pcs && (s.pcs[t] == Done(r) <==> ArgumentsRefused(s.reqs[t], r))
            && (ArgumentsRefused(s.reqs[t], r) ==> Exec(cfg, s, Advance(t, published)) == s)
  {
    hide Run, Initial, ArgumentAnswer, ArgumentsRefused, StepWith;
    ArgumentsAreChecked(cfg, s0, acts);
    var s := Run(cfg, s0, acts);
    assert AnsweredForArguments(s.reqs[t], s.pcs[t]);
    if s.pcs[t] == Done(r) { DoneStays(cfg, s, t, published); }
  }

  // ---- the lookup of a signup ----

  /** The signup was turned away at its lookup and stored nothing. */
  predicate TurnedAway(pc: Pc) {
    pc == Done(DatabaseFailed) || pc == Done(AlreadyExists) || pc == Done(HashFailed)
  }

  /** A signup goes on past its lookup exactly when that works, no account has its email and bcrypt takes its password. */
  lemma SignupLookupDecides(cfg: Config, s: Sys, a: Action)
    requires Commands(s, a) && s.pcs[a.id].SendLookup?
    ensures s.reqs[a.id].SendOTP?
    ensures var req, t := s.reqs[a.id], Exec(cfg, s, a);
            var pc := t.pcs[a.id];
            && t.w == s.w
            && (pc == SendRate(Bcrypt(req.password)) <==>
                  !req.faults.lookup && !HasEmail(s.w.db, req.email) && |req.password| <= 72)
            && (pc == Done(AlreadyExists) <==> !req.faults.lookup && HasEmail(s.w.db, req.email))
            && (pc == Done(HashFailed) <==> !req.faults.lookup && !HasEmail(s.w.db, req.email) && |req.password| > 72)
            && (pc == Done(DatabaseFailed) <==> req.faults.lookup)
  {
    Dispatch(cfg, s.w, s.reqs[a.id], s.pcs[a.id], a.published);
    hide StepWith;
  }

  lemma {:induction false} AnswerStays(cfg: Config, s0: Sys, acts: seq<Action>, n: nat, k: nat, id: CallId)
    requires n <= k <= |acts| && id in StateAt(cfg, s0, acts, n).pcs && StateAt(cfg, s0, acts, n).pcs[id].Done?
    ensures id in StateAt(cfg, s0, acts, k).pcs && StateAt(cfg, s0, acts, k).pcs[id] == StateAt(cfg, s0, acts, n).pcs[id]
  {
    hide Exec;
    if n < k {
      AnswerStays(cfg, s0, acts, n, k - 1, id);
      DonePcStays(cfg, StateAt(cfg, s0, acts, k - 1), acts[k - 1], id);
    }
  }

  lemma DonePcStays(cfg: Config, s: Sys, a: Action, id: CallId)
    requires id in s.pcs && s.pcs[id].Done?
    ensures id in Exec(cfg, s, a).pcs && Exec(cfg, s, a).pcs[id] == s.pcs[id]
  {
    if a.Advance? && a.id == id && Enabled(s, a) { DoneStays(cfg, s, id, a.published); }
    hide StepWith;
  }

  /**
   In every interleaving: once an email has an account, no signup that looks it up from then on
   stores a code for it; each is answered AlreadyExists, unless its lookup fails.
   */
  lemma RegisteredEmailGetsNoCode(cfg: Config, s0: Sys, acts: seq<Action>, m: nat, n: nat, k: nat)
    requires Initial(s0) && m <= n < k <= |acts|
    requires var s := StateAt(cfg, s0, acts, n);
             && Commands(s, acts[n]) && s.pcs[acts[n].id].SendLookup? && s.reqs[acts[n].id].SendOTP?
             && HasEmail(StateAt(cfg, s0, acts, m).w.db, s.reqs[acts[n].id].email)
    ensures var s, t, id := StateAt(cfg, s0, acts, n), StateAt(cfg, s0, acts, k), acts[n].id;
            id in t.pcs && t.pcs[id] == Done(if s.reqs[id].faults.lookup then DatabaseFailed else AlreadyExists)
  {
    hide StateAt, Exec, Initial, Fits;
    var s, id := StateAt(cfg, s0, acts, n), acts[n].id;
    Logins.RowsStay(cfg, s0, acts, m, n);
    EmailStays(StateAt(cfg, s0, acts, m).w.db, s.w.db, s.reqs[id].email);
    SignupLookupDecides(cfg, s, acts[n]);
    StateAtNext(cfg, s0, acts, n);
    AdvanceKeepsCall(cfg, s, acts[n]);
    AnswerStays(cfg, s0, acts, n + 1, k, id);
  }

  lemma AdvanceKeepsCall(cfg: Config, s: Sys, a: Action)
    requires Commands(s, a)
    ensures a.id in Exec(cfg, s, a).pcs
  {
    hide StepWith;
  }

  lemma EmailStays(a: Db, b: Db, email: string)
    requires Extends(a, b) && HasEmail(a, email)
    ensures HasEmail(b, email)
  {
    var id :| id in a.users && a.users[id].email == email;
    assert b.users[id].email == email;
  }

  // ---- atomic calls, on the rows ----

  /** A whole signup: each refusal exactly in its case, and past them the answer is what Publish came to. */
  lemma SendAnswersExactly(cfg: Config, w: World, req: Request)
    requires req.SendOTP? && !ArgumentsRefused(req, BadRequest) && !ArgumentsRefused(req, PasswordMismatch)
    ensures var r := Apply(cfg, w, req).1;
            var free := !req.faults.lookup && !HasEmail(w.db, req.email) && |req.password| <= 72;
            var below := CountAt(w.store, Rate(req.email), w.now) < cfg.otpRateMaxPerHour;
            && (r == DatabaseFailed <==> req.faults.lookup)
            && (r == AlreadyExists <==> !req.faults.lookup && HasEmail(w.db, req.email))
            && (r == HashFailed <==> !req.faults.lookup && !HasEmail(w.db, req.email) && |req.password| > 72)
            && (r == TooManyRequests <==> free && !below)
            && (r == OtpFailed <==> free && below && req.faults.random)
            && (r == SaveFailed <==> free && below && !req.faults.random && req.faults.save)
            && (free && below && !req.faults.random && !req.faults.save ==>
                  r == (match req.publish
                        case Delivered => OtpSent(req.sid)
                        case ErrDeliveryUnknown => StillProcessing
                        case _ => QueueFailed))
  {
    Atomic.SendEffect(cfg, w, req);
    hide Apply;
  }

  /** No account has this id or this email yet. */
  ghost predicate Free(db: Db, id: string, email: string) {
    forall x | x in db.users :: x != id && db.users[x].email != email
  }

  /** A whole verification, on what Redis and the tables hold. */
  lemma VerifyAnswersExactly(cfg: Config, w: World, req: Request)
    requires req.VerifyOTP? && req.code != "" && req.otpSid != ""
    ensures var (w', r) := Apply(cfg, w, req);
            match Get(w.store, Session(req.otpSid), w.now)
            case Some(OtpSession(SessionData(mac, meta))) =>
              var right := mac == hmacFor(cfg.otpHmacSecret, meta.email, req.code) &&
                           CountAt(w.store, Attempts(meta.email), w.now) < cfg.otpMaxVerifyAttempts;
              && (r.OtpRejected? <==> !right)
              && (r.Created? <==> right && Free(w.db, req.newId, meta.email))
              && (r.CreateFailed? <==> right && !Free(w.db, req.newId, meta.email))
              && (if r.Created? then
                    var u := UserRow(req.newId, meta.firstName, meta.lastName, meta.email, Some(meta.hashedPassword), true);
                    r.user == u && w'.db == w.db.(users := w.db.users[req.newId := u])
                  else w'.db == w.db)
            case _ => r == OtpRejected && w' == w
  {
    Atomic.VerifyEffect(cfg, w, req);
    if Atomic.Consumes(cfg, w, req) {
      InsertUserExactly(w.db, NewUser(req.newId, Atomic.SessionOf(w, req.otpSid).value.meta));
    }
    hide Apply, InsertUser, Atomic.ConsumedStore, Atomic.MiscountedStore, hmacFor;
  }

  /** No link has this id, and this provider has none to this account. */
  ghost predicate LinkFree(db: Db, linkId: string, provider: string, user: string) {
    forall l | l in db.links :: l != linkId && !(db.links[l].provider == provider && db.links[l].userId == user)
  }

  /** The identity is linked to the account u. */
  ghost predicate LinkedUser(db: Db, token: GoogleToken, u: UserRow)
    requires token.Valid?
  {
    exists l | l in db.links ::
      && db.links[l].provider == token.issuer && db.links[l].providerId == token.subject
      && db.links[l].userId in db.users && db.users[db.links[l].userId] == u
  }

  ghost predicate Unlinked(db: Db, token: GoogleToken)
    requires token.Valid?
  {
    !HasIdentity(db, token.issuer, token.subject)
  }

  /** Case 1 of the transaction: the identity is linked, and its account is opened whatever the email claim says. */
  lemma LinkedIdentitySignsIn(cfg: Config, w: World, req: Request, u: UserRow)
    requires req.Google? && GoodClaims(req.idToken) && Consistent(w.db) && LinkedUser(w.db, req.idToken, u)
    ensures var (w', r) := Apply(cfg, w, req);
            w'.db == w.db && r.SignedIn? && Logins.Shows(r.profile, u)
  {
    Atomic.GoogleSignIn(cfg, w, req);
    hide Apply, GenerateAccessToken, GenerateRefreshToken, InsertLink, InsertBoth;
  }

  /** Case 2: the account with the token's email gets the link, unless a link is in the way. */
  lemma KnownEmailIsLinked(cfg: Config, w: World, req: Request, u: UserRow)
    requires req.Google? && GoodClaims(req.idToken) && Consistent(w.db) && Unlinked(w.db, req.idToken)
    requires u.id in w.db.users && w.db.users[u.id] == u && u.email == req.idToken.email.value
    ensures var (w', r) := Apply(cfg, w, req);
            if LinkFree(w.db, req.linkId, req.idToken.issuer, u.id) then
              var l := LinkRow(req.linkId, req.idToken.issuer, req.idToken.subject, u.id);
              w'.db == w.db.(links := w.db.links[l.id := l]) && r.SignedIn? && Logins.Shows(r.profile, u)
            else w' == w && r == TransactionFailed
  {
    Atomic.GoogleSignIn(cfg, w, req);
    LookupsFindRows(w.db, u, LinkRow("", "", "", ""));
    InsertLinkExactly(w.db, LinkRow(req.linkId, req.idToken.issuer, req.idToken.subject, u.id));
    hide Apply, GenerateAccessToken, GenerateRefreshToken, InsertLink, InsertBoth, UserByEmail;
  }

  /** Case 3: a new account with the token's email and names and no password, and the link, or nothing at all. */
  lemma NewIdentityIsCreated(cfg: Config, w: World, req: Request)
    requires req.Google? && GoodClaims(req.idToken) && Consistent(w.db) && Unlinked(w.db, req.idToken)
    requires !HasEmail(w.db, req.idToken.email.value)
    ensures var (w', r) := Apply(cfg, w, req);
            var token := req.idToken;
            if req.newId !in w.db.users && req.linkId !in w.db.links then
              var u := UserRow(req.newId, token.givenName, token.familyName, token.email.value, None, true);
              var l := LinkRow(req.linkId, token.issuer, token.subject, req.newId);
              w'.db == Db(w.db.users[u.id := u], w.db.links[l.id := l]) && r.SignedIn? && Logins.Shows(r.profile, u)
            else w' == w && r == TransactionFailed
  {
    var u, l := GoogleUser(req), GoogleLinkTo(req, req.newId);
    Atomic.GoogleSignIn(cfg, w, req);
    InsertUserExactly(w.db, u);
    if InsertUser(w.db, u).Some? { InsertLinkExactly(InsertUser(w.db, u).value, l); }
    hide Apply, GenerateAccessToken, GenerateRefreshToken, InsertLink, InsertUser, UserByEmail, LinkByIdentity;
  }

  /** A whole lookup answers the account's fields, or NotFound exactly without one. */
  lemma LookupAnswersExactly(cfg: Config, s0: Sys, acts: seq<Action>, id: string, readable: bool, writable: bool)
    requires Initial(s0) && id != ""
    ensures var w := Run(cfg, s0, acts).w;
            var r := Apply(cfg, w, GetUser(id, readable, writable)).1;
            if id in w.db.users then r.Found? && Logins.Shows(r.profile, w.db.users[id]) else r == NotFound
  {
    Accounts.CacheAgreesWithDatabase(cfg, s0, acts, id, readable, writable, 0);
    InitialInv(cfg, s0);
    Reachable(cfg, s0, acts);
    hide Apply, Run, Initial, StoreOk, CallsOk, SidsDistinct, CreationsDistinct;
  }
}
