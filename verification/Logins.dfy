/**
 What a password opens, in every interleaving: when a login succeeds, what it is told
 otherwise, and that the account of a signup is opened by the password of that signup alone.
 */
module Logins {
  import opened Wrappers
  import opened Model
  import opened Tables
  import opened Service
  import opened Interleaved
  import opened Accounts
  import Atomic
  import KafkaProducer

  /** Some account has this email and this password. */
  ghost predicate OpensWith(db: Db, email: string, password: string) {
    exists id | id in db.users :: db.users[id].email == email && db.users[id].password == Some(Bcrypt(password))
  }

  /** Some account has this email and another password or, signed up with Google, none. */
  ghost predicate RefusesPassword(db: Db, email: string, password: string) {
    exists id | id in db.users :: db.users[id].email == email && db.users[id].password != Some(Bcrypt(password))
  }

  /** The public side of an account, field by field. */
  predicate Shows(p: Profile, u: UserRow) {
    && p.id == u.id && p.firstName == u.firstName && p.lastName == u.lastName
    && p.email == u.email && p.emailVerified == u.emailVerified
  }

  ghost predicate ShowsAccount(db: Db, email: string, password: string, p: Profile) {
    exists id | id in db.users ::
      Shows(p, db.users[id]) && db.users[id].email == email && db.users[id].password == Some(Bcrypt(password))
  }

  /** In a consistent database exactly one of the three answers is right. */
  lemma OneAnswer(db: Db, email: string, password: string)
    requires Consistent(db)
    ensures !(OpensWith(db, email, password) && RefusesPassword(db, email, password))
    ensures HasEmail(db, email) <==> OpensWith(db, email, password) || RefusesPassword(db, email, password)
  {
  }

  // ---- one atomic call ----

  /** A login with an email and a password: each answer exactly in its case, on the rows alone. */
  lemma LoginAnswersExactly(cfg: Config, w: World, req: Request)
    requires req.Login? && Consistent(w.db)
    ensures var r := Apply(cfg, w, req).1;
            if req.loginEmail == "" || req.loginPassword == "" then r == BadRequest
            else
              && (r.SignedIn? <==> OpensWith(w.db, req.loginEmail, req.loginPassword))
              && (r.IncorrectPassword? <==> RefusesPassword(w.db, req.loginEmail, req.loginPassword))
              && (r.EmailNotFound? <==> !HasEmail(w.db, req.loginEmail))
              && (r.SignedIn? ==> ShowsAccount(w.db, req.loginEmail, req.loginPassword, r.profile))
  {
    hide StepSend, StepVerify, StepRotate, StepCache, StepGoogle, Consistent;
    OneAnswer(w.db, req.loginEmail, req.loginPassword);
    if req.loginEmail != "" && req.loginPassword != "" {
      Atomic.Unroll(cfg, w, req, LoginLookup);
      var (w1, pc1) := Step(cfg, w, req, LoginLookup);
      if pc1.SignInRefresh? { Atomic.SignInTail(cfg, w1, req, pc1.user); }
    }
  }

  // ---- interleaved calls ----

  /** The login has found its account and will answer with tokens, or has. */
  predicate WillSignIn(pc: Pc) { pc.SignInRefresh? || pc.SignInCache? || (pc.Done? && pc.response.SignedIn?) }

  ghost predicate IsFor(pc: Pc, db: Db, email: string, password: string) {
    match pc
    case SignInRefresh(u) => u.id in db.users && db.users[u.id] == u && u.email == email && u.password == Some(Bcrypt(password))
    case SignInCache(u, _, _) => u.id in db.users && db.users[u.id] == u && u.email == email && u.password == Some(Bcrypt(password))
    case Done(SignedIn(_, _, p)) => ShowsAccount(db, email, password, p)
    case _ => true
  }

  ghost predicate Decided(s: Sys, id: CallId, found: Pc) {
    && id in s.reqs && id in s.pcs && s.reqs[id].Login? && IsFor(s.pcs[id], s.w.db, s.reqs[id].loginEmail, s.reqs[id].loginPassword)
    && (if WillSignIn(found) then WillSignIn(s.pcs[id]) else s.pcs[id] == found && found.Done?)
  }

  /** The lookup of a login decides what it is answered. */
  lemma LookupDecides(cfg: Config, s: Sys, a: Action)
    requires Commands(s, a) && s.pcs[a.id].LoginLookup? && Consistent(s.w.db)
    ensures s.reqs[a.id].Login? && a.id in Exec(cfg, s, a).pcs
    ensures var req, t := s.reqs[a.id], Exec(cfg, s, a);
            var found := t.pcs[a.id];
            && t.w == s.w && t.reqs == s.reqs && Decided(t, a.id, found)
            && (WillSignIn(found) <==> OpensWith(s.w.db, req.loginEmail, req.loginPassword))
            && (found == Done(IncorrectPassword) <==> RefusesPassword(s.w.db, req.loginEmail, req.loginPassword))
            && (found == Done(EmailNotFound) <==> !HasEmail(s.w.db, req.loginEmail))
  {
    OneAnswer(s.w.db, s.reqs[a.id].loginEmail, s.reqs[a.id].loginPassword);
    Dispatch(cfg, s.w, s.reqs[a.id], s.pcs[a.id], a.published);
    hide StepWith, StepGoogle, FreshRequest;
  }

  lemma IsForGrows(pc: Pc, a: Db, b: Db, email: string, password: string)
    requires Extends(a, b) && IsFor(pc, a, email, password)
    ensures IsFor(pc, b, email, password)
  {
    if pc.Done? && pc.response.SignedIn? {
      var id :| id in a.users && Shows(pc.response.profile, a.users[id]) && a.users[id].email == email &&
                a.users[id].password == Some(Bcrypt(password));
      assert b.users[id] == a.users[id];
    }
  }

  lemma SignInGoesOn(cfg: Config, w: World, req: Request, pc: Pc, published: KafkaProducer.Outcome)
    requires (pc.SignInRefresh? || pc.SignInCache?) && SignInFits(req, pc) && req.Login?
    requires IsFor(pc, w.db, req.loginEmail, req.loginPassword)
    ensures Fits(req, pc)
    ensures var r := StepWith(cfg, w, req, pc, published);
            r.0.db == w.db && WillSignIn(r.1) && IsFor(r.1, w.db, req.loginEmail, req.loginPassword)
  {
    assert Fits(req, pc);
    Dispatch(cfg, w, req, pc, published);
    hide StepWith, StepGoogle;
    assert pc.SignInCache? ==> Shows(Public(pc.user), w.db.users[pc.user.id]);
  }

  lemma DecidedStays(cfg: Config, s: Sys, a: Action, id: CallId, found: Pc)
    requires Decided(s, id, found) && Extends(s.w.db, Exec(cfg, s, a).w.db)
    ensures Decided(Exec(cfg, s, a), id, found) && Exec(cfg, s, a).reqs[id] == s.reqs[id]
  {
    IsForGrows(s.pcs[id], s.w.db, Exec(cfg, s, a).w.db, s.reqs[id].loginEmail, s.reqs[id].loginPassword);
    RequestsStay(cfg, s, a, id);
    if a.Advance? && a.id == id && Enabled(s, a) {
      if s.pcs[id].Done? { DoneStays(cfg, s, id, a.published); }
      else { SignInGoesOn(cfg, s.w, s.reqs[id], s.pcs[id], a.published); }
    }
    hide StepWith, Extends, IsFor, FreshRequest;
  }

  lemma {:induction false} DecidedFrom(cfg: Config, s0: Sys, acts: seq<Action>, id: CallId, n: nat, k: nat, found: Pc)
    requires Initial(s0) && n <= k <= |acts| && Decided(StateAt(cfg, s0, acts, n), id, found)
    ensures Decided(StateAt(cfg, s0, acts, k), id, found)
    ensures StateAt(cfg, s0, acts, k).reqs[id] == StateAt(cfg, s0, acts, n).reqs[id]
  {
    hide Exec, Decided, Inv, Extends, Initial;
    if n < k {
      DecidedFrom(cfg, s0, acts, id, n, k - 1, found);
      InvAt(cfg, s0, acts, k - 1);
      InvKept(cfg, StateAt(cfg, s0, acts, k - 1), acts[k - 1]);
      DecidedStays(cfg, StateAt(cfg, s0, acts, k - 1), acts[k - 1], id, found);
    }
    DecidedHasRequest(StateAt(cfg, s0, acts, n), id, found);
  }

  lemma DecidedHasRequest(s: Sys, id: CallId, found: Pc)
    requires Decided(s, id, found)
    ensures id in s.reqs && id in s.pcs
  {
  }

  lemma InvAt(cfg: Config, s0: Sys, acts: seq<Action>, i: nat)
    requires Initial(s0) && i <= |acts|
    ensures Inv(cfg, StateAt(cfg, s0, acts, i))
  {
    hide Inv, Run, StateAt, Initial;
    InitialInv(cfg, s0);
    Reachable(cfg, s0, acts[..i]);
    StateAtIsRun(cfg, s0, acts, i);
  }

  /** What a decided login says once it is done. */
  lemma DecidedAnswers(t: Sys, id: CallId, found: Pc)
    requires Decided(t, id, found) && t.pcs[id].Done?
    ensures var r := t.pcs[id].response;
            && (r.SignedIn? <==> WillSignIn(found))
            && (r.IncorrectPassword? <==> found == Done(IncorrectPassword))
            && (r.EmailNotFound? <==> found == Done(EmailNotFound))
            && (r.SignedIn? ==> ShowsAccount(t.w.db, t.reqs[id].loginEmail, t.reqs[id].loginPassword, r.profile))
  {
    hide ShowsAccount;
  }

  /**
   In every interleaving a login is answered by what its lookup found, on the rows of that
   moment: tokens exactly for an account with its email and password, IncorrectPassword exactly
   for an account with another password or none, EmailNotFound exactly without an account. The
   profile it is told is that account's.
   */
  lemma LoginAnsweredExactly(cfg: Config, s0: Sys, acts: seq<Action>, n: nat, k: nat)
    requires Initial(s0) && n < k <= |acts|
    requires var s := StateAt(cfg, s0, acts, n); Commands(s, acts[n]) && s.pcs[acts[n].id].LoginLookup?
    ensures var s, t, id := StateAt(cfg, s0, acts, n), StateAt(cfg, s0, acts, k), acts[n].id;
            var db, email, password := s.w.db, s.reqs[id].loginEmail, s.reqs[id].loginPassword;
            && id in t.pcs && s.reqs[id].Login?
            && (t.pcs[id].Done? ==>
                  var r := t.pcs[id].response;
                  && (r.SignedIn? <==> OpensWith(db, email, password))
                  && (r.IncorrectPassword? <==> RefusesPassword(db, email, password))
                  && (r.EmailNotFound? <==> !HasEmail(db, email))
                  && (r.SignedIn? ==> ShowsAccount(t.w.db, email, password, r.profile)))
  {
    hide StateAt, Exec, Initial, Inv, OpensWith, RefusesPassword, ShowsAccount, Fits, Decided, WillSignIn, Consistent;
    var s, t, id := StateAt(cfg, s0, acts, n), StateAt(cfg, s0, acts, k), acts[n].id;
    InvAt(cfg, s0, acts, n);
    InvIsConsistent(cfg, s);
    LookupDecides(cfg, s, acts[n]);
    StateAtNext(cfg, s0, acts, n);
    var found := Exec(cfg, s, acts[n]).pcs[id];
    DecidedFrom(cfg, s0, acts, id, n + 1, k, found);
    DecidedHasRequest(t, id, found);
    if t.pcs[id].Done? { DecidedAnswers(t, id, found); }
  }

  lemma InvIsConsistent(cfg: Config, s: Sys)
    requires Inv(cfg, s)
    ensures Consistent(s.w.db) && s.pcs.Keys == s.reqs.Keys
  {
    hide StoreOk, Consistent, PcOk;
  }

  // ---- the password of a signup ----

  lemma {:induction false} RowsStay(cfg: Config, s0: Sys, acts: seq<Action>, n: nat, k: nat)
    requires Initial(s0) && n <= k <= |acts|
    ensures Extends(StateAt(cfg, s0, acts, n).w.db, StateAt(cfg, s0, acts, k).w.db)
  {
    hide Exec, Inv, Initial;
    if n == k {
      ExtendsItself(StateAt(cfg, s0, acts, n).w.db);
    } else {
      RowsStay(cfg, s0, acts, n, k - 1);
      InvAt(cfg, s0, acts, k - 1);
      InvKept(cfg, StateAt(cfg, s0, acts, k - 1), acts[k - 1]);
    }
  }

  /** An account with this row: the email has that one password. */
  lemma OnePassword(db: Db, u: UserRow, later: Db, password: string, own: string, p: Profile)
    requires Consistent(db) && Consistent(later) && Extends(db, later)
    requires KnownRow(db, u) && u.password == Some(Bcrypt(own))
    ensures OpensWith(db, u.email, password) <==> password == own
    ensures RefusesPassword(db, u.email, password) <==> password != own
    ensures ShowsAccount(later, u.email, password, p) ==> Shows(p, u)
  {
    if password != own { assert db.users[u.id].email == u.email && db.users[u.id].password != Some(Bcrypt(password)); }
    if ShowsAccount(later, u.email, password, p) {
      var id :| id in later.users && Shows(p, later.users[id]) && later.users[id].email == u.email;
      assert later.users[u.id] == u;
    }
  }

  /** A login for an account that a signup made: it succeeds with that signup's password and with no other. */
  ghost predicate OpenedByItsPassword(s: Sys, t: Sys, a: CallId, v: CallId, login: CallId)
    requires a in s.reqs && s.reqs[a].SendOTP? && v in s.reqs && s.reqs[v].VerifyOTP?
    requires login in s.reqs && s.reqs[login].Login? && login in t.pcs
  {
    var send, password := s.reqs[a], s.reqs[login].loginPassword;
    t.pcs[login].Done? ==>
      var r := t.pcs[login].response;
      && (r.SignedIn? <==> password == send.password)
      && (r.IncorrectPassword? <==> password != send.password)
      && (r.SignedIn? ==>
            r.profile == Profile(s.reqs[v].newId, send.firstName, send.lastName, send.email, true))
  }

  /**
   From a signup to a login, in every interleaving: an account that a verification created is
   opened, by every later login with its email, with the password of the SendOTP call whose
   session and code created it and with no other, and shows the names given there.
   */
  lemma SignupPasswordOpensIt(cfg: Config, s0: Sys, acts: seq<Action>, v: CallId, n: nat, k: nat) returns (a: CallId)
    requires Initial(s0) && n < k <= |acts|
    requires var s := StateAt(cfg, s0, acts, n);
             && Commands(s, acts[n]) && s.pcs[acts[n].id].LoginLookup? && s.reqs[acts[n].id].Login?
             && CreatedAt(s, v) && s.reqs[acts[n].id].loginEmail == s.pcs[v].response.user.email
    ensures var s, t := StateAt(cfg, s0, acts, n), StateAt(cfg, s0, acts, k);
            && Opened(s.reqs, a, s.reqs[v], s.pcs[v].response.user)
            && acts[n].id in t.pcs && OpenedByItsPassword(s, t, a, v, acts[n].id)
  {
    hide StateAt, Exec, Initial, Inv, OpensWith, RefusesPassword, ShowsAccount, Extends, Consistent, Fits;
    var s, t, id := StateAt(cfg, s0, acts, n), StateAt(cfg, s0, acts, k), acts[n].id;
    InvAt(cfg, s0, acts, n);
    InvAt(cfg, s0, acts, k);
    InvIsConsistent(cfg, s);
    InvIsConsistent(cfg, t);
    a := CreationWasOpened(cfg, s, v);
    LoginAnsweredExactly(cfg, s0, acts, n, k);
    RowsStay(cfg, s0, acts, n, k);
    var p := if t.pcs[id].Done? && t.pcs[id].response.SignedIn? then t.pcs[id].response.profile else Profile("", "", "", "", true);
    OnePassword(s.w.db, s.pcs[v].response.user, t.w.db, s.reqs[id].loginPassword, s.reqs[a].password, p);
  }
}
