/**
 Where the rows come from, in every interleaving: each account beyond those of the initial
 database was made by a verified signup or by a Google token with a verified email, and each
 link by such a token for the account of its own email.
 */
module Origins {
  import opened Wrappers
  import opened Model
  import opened Tables
  import opened Service
  import opened Interleaved
  import opened Accounts
  import KafkaProducer

  /** The claims that handleVerifyGoogleIDToken insists on. */
  predicate GoodClaims(t: GoogleToken) {
    t.Valid? && t.email.Some? && t.email.value != "" && t.emailVerified == Some(true) && t.subject != ""
  }

  /** A token without an email, or no token at all, is a bad request; any other bad token is unauthorized. */
  predicate LacksEmail(t: GoogleToken) { t.Missing? || (t.Valid? && (t.email == None || t.email == Some(""))) }

  // ---- origins ----

  ghost predicate MadeBySignup(reqs: map<CallId, Request>, u: UserRow) {
    exists a, v | v in reqs :: Opened(reqs, a, reqs[v], u)
  }

  ghost predicate MadeByGoogle(reqs: map<CallId, Request>, u: UserRow) {
    exists t | t in reqs ::
      && reqs[t].Google? && GoodClaims(reqs[t].idToken)
      && u == UserRow(reqs[t].newId, reqs[t].idToken.givenName, reqs[t].idToken.familyName, reqs[t].idToken.email.value, None, true)
  }

  /** The link names the token's identity, and its account has the token's email. */
  ghost predicate LinkedByGoogle(reqs: map<CallId, Request>, users: map<string, UserRow>, l: LinkRow) {
    exists t | t in reqs ::
      && reqs[t].Google? && GoodClaims(reqs[t].idToken)
      && l == LinkRow(reqs[t].linkId, reqs[t].idToken.issuer, reqs[t].idToken.subject, l.userId)
      && l.userId in users && users[l.userId].email == reqs[t].idToken.email.value
  }

  ghost predicate RowsHaveOrigins(db0: Db, s: Sys) {
    && (forall id | id in s.w.db.users && id !in db0.users ::
          MadeBySignup(s.reqs, s.w.db.users[id]) || MadeByGoogle(s.reqs, s.w.db.users[id]))
    && (forall id | id in s.w.db.links && id !in db0.links :: LinkedByGoogle(s.reqs, s.w.db.users, s.w.db.links[id]))
  }

  // ---- claims ----

  /** A Google call past its claim checks has good claims; one that failed them has been told so. */
  predicate ClaimsChecked(req: Request, pc: Pc) {
    req.Google? ==>
      && (if GoodClaims(req.idToken) then pc != Done(BadRequest) && pc != Done(Unauthorized)
          else pc == Done(if LacksEmail(req.idToken) then BadRequest else Unauthorized))
      && (pc.GoogleLink? && req.idToken.Valid? ==> req.idToken.email == Some(pc.user.email))
  }

  ghost predicate AllChecked(s: Sys) {
    s.pcs.Keys == s.reqs.Keys && forall t | t in s.pcs :: ClaimsChecked(s.reqs[t], s.pcs[t])
  }

  lemma StartChecks(req: Request)
    ensures ClaimsChecked(req, Start(req))
  {
  }

  lemma GoogleGoesOn(cfg: Config, w: World, req: Request, pc: Pc)
    requires SignInPc(pc) && SignInFits(req, pc) && ClaimsChecked(req, pc)
    ensures ClaimsChecked(req, StepSignIn(cfg, w, req, pc).1)
  {
  }

  lemma CommandChecks(cfg: Config, w: World, req: Request, pc: Pc, published: KafkaProducer.Outcome)
    requires Fits(req, pc) && !pc.Done? && ClaimsChecked(req, pc)
    ensures ClaimsChecked(req, StepWith(cfg, w, req, pc, published).1)
  {
    if req.Google? {
      Dispatch(cfg, w, req, pc, published);
      GoogleGoesOn(cfg, w, req, pc);
    }
    hide StepWith, StepSignIn, StepSend, StepVerify, StepRotate, StepCache;
  }

  lemma ActionChecks(cfg: Config, s: Sys, a: Action)
    requires AllChecked(s)
    ensures AllChecked(Exec(cfg, s, a))
  {
    hide StepWith, ClaimsChecked, Fits, FreshRequest, Start;
    RequestsStay(cfg, s, a, 0);
    if Enabled(s, a) {
      if a.Begin? { StartChecks(a.req); }
      else if a.Advance? && s.pcs[a.id].Done? { DoneStays(cfg, s, a.id, a.published); }
      else if a.Advance? { CommandChecks(cfg, s.w, s.reqs[a.id], s.pcs[a.id], a.published); }
    }
  }

  lemma {:induction false} AlwaysChecked(cfg: Config, s0: Sys, acts: seq<Action>)
    requires Initial(s0)
    ensures AllChecked(Run(cfg, s0, acts))
  {
    hide Exec, AllChecked;
    if acts == [] {
      NothingToCheck(s0);
    } else {
      AlwaysChecked(cfg, s0, acts[..|acts| - 1]);
      ActionChecks(cfg, Run(cfg, s0, acts[..|acts| - 1]), acts[|acts| - 1]);
    }
  }

  lemma NothingToCheck(s: Sys)
    requires Initial(s)
    ensures AllChecked(s)
  {
  }

  // ---- one command ----

  /** What a command adds to the tables. */
  ghost predicate Adds(db: Db, req: Request, pc: Pc, db': Db) {
    || db' == db
    || (req.VerifyOTP? && pc.VerifyCreate? && db' == db.(users := db.users[req.newId := NewUser(req.newId, pc.meta)]))
    || (req.Google? && req.idToken.Valid? && req.idToken.email.Some? && pc.GoogleLink? && pc.user.id in db.users &&
        db' == db.(links := db.links[req.linkId := GoogleLinkTo(req, pc.user.id)]))
    || (req.Google? && req.idToken.Valid? && req.idToken.email.Some? && pc.GoogleCreate? &&
        db' == Db(db.users[req.newId := GoogleUser(req)], db.links[req.linkId := GoogleLinkTo(req, req.newId)]))
  }

  lemma VerifyAdds(cfg: Config, w: World, req: Request, pc: Pc)
    requires req.VerifyOTP? && VerifyPc(pc)
    ensures Adds(w.db, req, pc, StepVerify(cfg, w, req, pc).0.db)
  {
    if pc.VerifyCreate? { InsertUserExactly(w.db, NewUser(req.newId, pc.meta)); }
    hide InsertUser, NewUser;
  }

  lemma GoogleAdds(cfg: Config, w: World, req: Request, pc: Pc)
    requires SignInFits(req, pc) && (pc.GoogleFindLink? || pc.GoogleFindUser? || pc.GoogleLink? || pc.GoogleCreate?)
    ensures Adds(w.db, req, pc, StepGoogle(cfg, w, req, pc).0.db)
  {
    if pc.GoogleLink? { InsertLinkExactly(w.db, GoogleLinkTo(req, pc.user.id)); }
    if pc.GoogleCreate? {
      InsertUserExactly(w.db, GoogleUser(req));
      if InsertUser(w.db, GoogleUser(req)).Some? {
        InsertLinkExactly(InsertUser(w.db, GoogleUser(req)).value, GoogleLinkTo(req, req.newId));
      }
    }
    hide InsertUser, InsertLink, LinkByIdentity, UserByEmail, GoogleUser, GoogleLinkTo;
  }

  lemma CommandAdds(cfg: Config, w: World, req: Request, pc: Pc, published: KafkaProducer.Outcome)
    requires Fits(req, pc) && !pc.Done?
    ensures Adds(w.db, req, pc, StepWith(cfg, w, req, pc, published).0.db)
  {
    Dispatch(cfg, w, req, pc, published);
    hide StepWith, StepGoogle, StepVerify, Fits;
    if VerifyPc(pc) { VerifyAdds(cfg, w, req, pc); }
    else if SignInPc(pc) { SignInAdds(cfg, w, req, pc); }
  }

  lemma SignInAdds(cfg: Config, w: World, req: Request, pc: Pc)
    requires SignInPc(pc) && SignInFits(req, pc)
    ensures Adds(w.db, req, pc, StepSignIn(cfg, w, req, pc).0.db)
  {
    hide StepGoogle;
    if pc.GoogleFindLink? || pc.GoogleFindUser? || pc.GoogleLink? || pc.GoogleCreate? { GoogleAdds(cfg, w, req, pc); }
  }

  // ---- origins stay and new rows have one ----

  lemma OriginsStay(a: map<CallId, Request>, b: map<CallId, Request>, u: UserRow)
    requires forall t | t in a :: t in b && b[t] == a[t]
    ensures MadeBySignup(a, u) ==> MadeBySignup(b, u)
    ensures MadeByGoogle(a, u) ==> MadeByGoogle(b, u)
  {
    if MadeBySignup(a, u) {
      var x, v :| v in a && Opened(a, x, a[v], u);
      assert Opened(b, x, b[v], u);
    }
  }

  lemma LinkOriginStays(a: map<CallId, Request>, b: map<CallId, Request>, before: map<string, UserRow>, after: map<string, UserRow>,
                        l: LinkRow)
    requires forall t | t in a :: t in b && b[t] == a[t]
    requires forall id | id in before :: id in after && after[id] == before[id]
    ensures LinkedByGoogle(a, before, l) ==> LinkedByGoogle(b, after, l)
  {
  }

  lemma CreatedHasOrigin(cfg: Config, s: Sys, v: CallId)
    requires Inv(cfg, s) && v in s.pcs && v in s.reqs && s.reqs[v].VerifyOTP? && s.pcs[v].VerifyCreate?
    ensures MadeBySignup(s.reqs, NewUser(s.reqs[v].newId, s.pcs[v].meta))
  {
    assert PcOk(cfg, s.w.db, s.reqs, s.reqs[v], s.pcs[v]);
    hide CallsOk, StoreOk, Consistent, SidsDistinct, CreationsDistinct;
    var meta := s.pcs[v].meta;
    var a :| a in s.reqs && s.reqs[a].SendOTP? && s.reqs[a].sid == s.reqs[v].otpSid && s.reqs[a].otp == s.reqs[v].code &&
             meta == MetaOf(s.reqs[a], Bcrypt(s.reqs[a].password));
    assert Opened(s.reqs, a, s.reqs[v], NewUser(s.reqs[v].newId, meta));
  }

  lemma LinkTargetIsRow(cfg: Config, s: Sys, t: CallId)
    requires Inv(cfg, s) && t in s.pcs && t in s.reqs && s.pcs[t].GoogleLink?
    ensures KnownRow(s.w.db, s.pcs[t].user)
  {
    assert PcOk(cfg, s.w.db, s.reqs, s.reqs[t], s.pcs[t]);
    hide CallsOk, StoreOk, Consistent;
  }

  lemma NewRowsHaveOrigins(cfg: Config, db0: Db, s: Sys, a: Action)
    requires Inv(cfg, s) && AllChecked(s) && RowsHaveOrigins(db0, s) && Commands(s, a)
    requires Extends(s.w.db, Exec(cfg, s, a).w.db)
    ensures RowsHaveOrigins(db0, Exec(cfg, s, a))
  {
    var t := Exec(cfg, s, a);
    var req, pc := s.reqs[a.id], s.pcs[a.id];
    CommandAdds(cfg, s.w, req, pc, a.published);
    if req.VerifyOTP? && pc.VerifyCreate? { CreatedHasOrigin(cfg, s, a.id); }
    if pc.GoogleLink? { LinkTargetIsRow(cfg, s, a.id); }
    assert ClaimsChecked(req, pc);
    hide Inv, StepWith, Fits, MadeBySignup, AllChecked;
    forall id | id in t.w.db.users && id !in db0.users
      ensures MadeBySignup(t.reqs, t.w.db.users[id]) || MadeByGoogle(t.reqs, t.w.db.users[id])
    {
    }
    forall id | id in t.w.db.links && id !in db0.links ensures LinkedByGoogle(t.reqs, t.w.db.users, t.w.db.links[id]) {
      if id in s.w.db.links && s.w.db.links[id] == t.w.db.links[id] {
        LinkOriginStays(s.reqs, t.reqs, s.w.db.users, t.w.db.users, t.w.db.links[id]);
      }
    }
  }

  lemma ActionKeepsOrigins(cfg: Config, db0: Db, s: Sys, a: Action)
    requires Inv(cfg, s) && AllChecked(s) && RowsHaveOrigins(db0, s)
    ensures RowsHaveOrigins(db0, Exec(cfg, s, a))
  {
    InvKept(cfg, s, a);
    if Commands(s, a) {
      NewRowsHaveOrigins(cfg, db0, s, a);
    } else {
      OtherActions(cfg, s, a);
      MoreRequestsKeepOrigins(db0, s, Exec(cfg, s, a));
    }
    hide *;
  }

  lemma OtherActions(cfg: Config, s: Sys, a: Action)
    requires !Commands(s, a)
    ensures var t := Exec(cfg, s, a); t.w.db == s.w.db && forall x | x in s.reqs :: x in t.reqs && t.reqs[x] == s.reqs[x]
  {
    if a.Advance? && Enabled(s, a) { DoneStays(cfg, s, a.id, a.published); }
    hide StepWith, Fits, FreshRequest;
  }

  lemma MoreRequestsKeepOrigins(db0: Db, s: Sys, t: Sys)
    requires RowsHaveOrigins(db0, s) && t.w.db == s.w.db && forall x | x in s.reqs :: x in t.reqs && t.reqs[x] == s.reqs[x]
    ensures RowsHaveOrigins(db0, t)
  {
    forall id | id in t.w.db.users && id !in db0.users
      ensures MadeBySignup(t.reqs, t.w.db.users[id]) || MadeByGoogle(t.reqs, t.w.db.users[id])
    {
      OriginsStay(s.reqs, t.reqs, t.w.db.users[id]);
    }
    forall id | id in t.w.db.links && id !in db0.links ensures LinkedByGoogle(t.reqs, t.w.db.users, t.w.db.links[id]) {
      LinkOriginStays(s.reqs, t.reqs, s.w.db.users, t.w.db.users, t.w.db.links[id]);
    }
    hide MadeBySignup, MadeByGoogle, LinkedByGoogle;
  }

  /**
   Whatever interleaves: a row that the initial database did not have is either the account of
   a verified signup, with the details and the password of the SendOTP call that opened the
   session, or that of a Google token with a verified email, with its names and no password;
   and a link was made by such a token, for its own identity and the account of its own email.
   */
  lemma {:induction false} EveryRowHasItsOrigin(cfg: Config, s0: Sys, acts: seq<Action>)
    requires Initial(s0)
    ensures RowsHaveOrigins(s0.w.db, Run(cfg, s0, acts))
  {
    hide Exec, Inv, AllChecked, Initial;
    if acts != [] {
      var front := acts[..|acts| - 1];
      EveryRowHasItsOrigin(cfg, s0, front);
      InitialInv(cfg, s0);
      Reachable(cfg, s0, front);
      AlwaysChecked(cfg, s0, front);
      hide RowsHaveOrigins;
      ActionKeepsOrigins(cfg, s0.w.db, Run(cfg, s0, front), acts[|acts| - 1]);
    }
  }

  // ---- what a Google sign-in needs ----

  /** The link that let a sign-in in: it was there from the start, or a token with the account's verified email made it. */
  ghost predicate Entitled(db0: Db, s: Sys, req: Request, user: string)
    requires req.Google? && req.idToken.Valid?
  {
    exists l | l in s.w.db.links ::
      && s.w.db.links[l].provider == req.idToken.issuer && s.w.db.links[l].providerId == req.idToken.subject
      && s.w.db.links[l].userId == user
      && (l in db0.links || LinkedByGoogle(s.reqs, s.w.db.users, s.w.db.links[l]))
  }

  /**
   In every interleaving: a Google call is answered BadRequest or Unauthorized exactly when its
   token is not valid, lacks an email or a subject, or its email is not verified; and one that is
   answered with tokens opens the account that its identity is linked to, by a link that was there
   from the start or was made by a token with that account's verified email.
   */
  lemma GoogleSignInIsEntitled(cfg: Config, s0: Sys, acts: seq<Action>, t: CallId)
    requires Initial(s0)
    requires var s := Run(cfg, s0, acts); t in s.pcs && t in s.reqs && s.reqs[t].Google? && s.pcs[t].Done?
    ensures var s := Run(cfg, s0, acts);
            var token, r := s.reqs[t].idToken, s.pcs[t].response;
            && (r.BadRequest? <==> LacksEmail(token))
            && (r.Unauthorized? <==> !LacksEmail(token) && !GoodClaims(token))
            && (r.SignedIn? ==> GoodClaims(token) && Entitled(s0.w.db, s, s.reqs[t], r.profile.id))
  {
    hide Run, Initial, Inv, LinkedTo, LinkedByGoogle;
    var s := Run(cfg, s0, acts);
    AlwaysChecked(cfg, s0, acts);
    assert ClaimsChecked(s.reqs[t], s.pcs[t]);
    hide AllChecked;
    if s.pcs[t].response.SignedIn? {
      InitialInv(cfg, s0);
      Reachable(cfg, s0, acts);
      EveryRowHasItsOrigin(cfg, s0, acts);
      SignedInIsLinked(cfg, s, t);
      LinkedIsEntitled(s0.w.db, s, s.reqs[t], s.pcs[t].response.profile.id);
    }
  }

  lemma LinkedIsEntitled(db0: Db, s: Sys, req: Request, user: string)
    requires req.Google? && req.idToken.Valid? && LinkedTo(s.w.db, req, user) && RowsHaveOrigins(db0, s)
    ensures Entitled(db0, s, req, user)
  {
    hide LinkedByGoogle, MadeBySignup, MadeByGoogle;
    var l :| l in s.w.db.links && s.w.db.links[l].provider == req.idToken.issuer &&
             s.w.db.links[l].providerId == req.idToken.subject && s.w.db.links[l].userId == user;
    assert l in db0.links || LinkedByGoogle(s.reqs, s.w.db.users, s.w.db.links[l]);
  }
}
