/**
 What the interleaved runs guarantee about accounts: where they come from, that an email and
 a Google identity each have one, and that the user cache agrees with the database.
 */
module Accounts {
  import opened Wrappers
  import opened Model
  import opened GoTime
  import opened Keys
  import opened Tables
  import opened TimedStore
  import opened Service
  import opened Interleaved
  import Atomic
  import KafkaProducer

  // ---- OTP signup ----

  /** The SendOTP call a successful verification names. */
  ghost predicate Opened(reqs: map<CallId, Request>, a: CallId, verify: Request, row: UserRow) {
    && a in reqs && reqs[a].SendOTP? && verify.VerifyOTP?
    && reqs[a].sid == verify.otpSid && reqs[a].otp == verify.code
    && row == UserRow(verify.newId, reqs[a].firstName, reqs[a].lastName, reqs[a].email,
                      Some(Bcrypt(reqs[a].password)), true)
  }

  lemma CreationWasOpened(cfg: Config, s: Sys, t: CallId) returns (a: CallId)
    requires Inv(cfg, s) && CreatedAt(s, t)
    ensures Opened(s.reqs, a, s.reqs[t], s.pcs[t].response.user) && KnownRow(s.w.db, s.pcs[t].response.user)
  {
    CreatedIsRow(cfg, s, t);
    var row := s.pcs[t].response.user;
    assert CodeFrom(s.reqs, s.reqs[t].otpSid, s.reqs[t].code,
                    Meta(row.firstName, row.lastName, row.email, row.password.value));
    hide Consistent, StoreOk, CallsOk, SidsDistinct, CreationsDistinct;
    a :| a in s.reqs && s.reqs[a].SendOTP? && s.reqs[a].sid == s.reqs[t].otpSid && s.reqs[a].otp == s.reqs[t].code &&
         Meta(row.firstName, row.lastName, row.email, row.password.value) == MetaOf(s.reqs[a], Bcrypt(s.reqs[a].password));
  }

  lemma CreationsAreDifferent(cfg: Config, s: Sys, t: CallId, u: CallId)
    requires Inv(cfg, s) && t != u && CreatedAt(s, t) && CreatedAt(s, u)
    ensures s.pcs[t].response.user.email != s.pcs[u].response.user.email
    ensures s.reqs[t].VerifyOTP? && s.reqs[u].VerifyOTP? && s.reqs[t].otpSid != s.reqs[u].otpSid
  {
    var a := CreationWasOpened(cfg, s, t);
    var b := CreationWasOpened(cfg, s, u);
    hide StoreOk, CallsOk;
  }

  /**
   However the commands of overlapping calls interleave, no two successful VerifyOTP calls
   create accounts for one email, and no two succeed on one OTP session.
   */
  lemma OneAccountPerEmailAndSession(cfg: Config, s0: Sys, acts: seq<Action>, t: CallId, u: CallId)
    requires Initial(s0) && t != u && CreatedAt(Run(cfg, s0, acts), t) && CreatedAt(Run(cfg, s0, acts), u)
    ensures var s := Run(cfg, s0, acts);
            && s.pcs[t].response.user.email != s.pcs[u].response.user.email
            && s.reqs[t].VerifyOTP? && s.reqs[u].VerifyOTP? && s.reqs[t].otpSid != s.reqs[u].otpSid
  {
    InitialInv(cfg, s0);
    Reachable(cfg, s0, acts);
    CreationsAreDifferent(cfg, Run(cfg, s0, acts), t, u);
    hide Run, Inv;
  }

  /**
   The account a VerifyOTP call created carries the names, email and password hash of the
   SendOTP call whose session it named and whose code it brought, and that account stays.
   */
  lemma AccountComesFromMatchingSession(cfg: Config, s0: Sys, acts: seq<Action>, t: CallId)
    requires Initial(s0) && CreatedAt(Run(cfg, s0, acts), t)
    ensures var s := Run(cfg, s0, acts);
            && KnownRow(s.w.db, s.pcs[t].response.user)
            && exists a :: Opened(s.reqs, a, s.reqs[t], s.pcs[t].response.user)
  {
    InitialInv(cfg, s0);
    Reachable(cfg, s0, acts);
    var a := CreationWasOpened(cfg, Run(cfg, s0, acts), t);
    hide Run, Inv, Opened;
  }

  // ---- Google identities ----

  /** A Google sign-in that handed out tokens. */
  predicate GoogleSignedIn(s: Sys, t: CallId) {
    && t in s.pcs && t in s.reqs && s.pcs[t].Done? && s.pcs[t].response.SignedIn?
    && s.reqs[t].Google? && s.reqs[t].idToken.Valid?
  }

  lemma LinkStays(a: Db, b: Db, req: Request, id: string)
    requires Extends(a, b) && req.Google? && req.idToken.Valid? && LinkedTo(a, req, id)
    ensures LinkedTo(b, req, id)
  {
    var l :| l in a.links && a.links[l].provider == req.idToken.issuer &&
             a.links[l].providerId == req.idToken.subject && a.links[l].userId == id;
    assert b.links[l] == a.links[l];
  }

  lemma OneUserPerLink(db: Db, r1: Request, r2: Request, id1: string, id2: string)
    requires Consistent(db) && r1.Google? && r1.idToken.Valid? && r2.Google? && r2.idToken.Valid?
    requires r1.idToken.issuer == r2.idToken.issuer && r1.idToken.subject == r2.idToken.subject
    requires LinkedTo(db, r1, id1) && LinkedTo(db, r2, id2)
    ensures id1 == id2
  {
  }

  /**
   An identity once signed in resolves to the same account in every later sign-in of every
   continuation, whatever its email claim says by then and whatever else happens in between.
   */
  lemma IdentityKeepsItsAccount(cfg: Config, s0: Sys, acts: seq<Action>, later: seq<Action>, t: CallId, u: CallId)
    requires Initial(s0)
    requires var s := Run(cfg, s0, acts); GoogleSignedIn(s, t)
    requires var s' := Run(cfg, Run(cfg, s0, acts), later); GoogleSignedIn(s', u)
    requires Run(cfg, s0, acts).reqs[t].idToken.issuer == Run(cfg, Run(cfg, s0, acts), later).reqs[u].idToken.issuer
    requires Run(cfg, s0, acts).reqs[t].idToken.subject == Run(cfg, Run(cfg, s0, acts), later).reqs[u].idToken.subject
    ensures var s, s' := Run(cfg, s0, acts), Run(cfg, Run(cfg, s0, acts), later);
            s.pcs[t].response.profile == s'.pcs[u].response.profile
  {
    InitialInv(cfg, s0);
    Reachable(cfg, s0, acts);
    var s := Run(cfg, s0, acts);
    Reachable(cfg, s, later);
    var s' := Run(cfg, s, later);
    SignedInIsLinked(cfg, s, t);
    SignedInIsLinked(cfg, s', u);
    LinkStays(s.w.db, s'.w.db, s.reqs[t], s.pcs[t].response.profile.id);
    OneUserPerLink(s'.w.db, s.reqs[t], s'.reqs[u], s.pcs[t].response.profile.id, s'.pcs[u].response.profile.id);
    hide Run, Consistent, StoreOk, CallsOk;
  }

  lemma SignedInIsLinked(cfg: Config, s: Sys, t: CallId)
    requires Inv(cfg, s) && GoogleSignedIn(s, t)
    ensures var p := s.pcs[t].response.profile;
            KnownProfile(s.w.db, p.id, p) && LinkedTo(s.w.db, s.reqs[t], p.id)
  {
    DoneIsOk(cfg, s, t);
    hide Consistent, StoreOk, CallsOk, SidsDistinct, CreationsDistinct, LinkedTo, Fits;
  }

  /** One command adds at most one user and one link, and a transaction that fails adds nothing. */
  lemma CommandAddsAtMostOneRow(cfg: Config, s0: Sys, acts: seq<Action>, a: Action)
    requires Initial(s0)
    ensures var s := Run(cfg, s0, acts);
            var t := Exec(cfg, s, a);
            && Consistent(t.w.db) && Extends(s.w.db, t.w.db)
            && (t.w.db.users == s.w.db.users || exists u: UserRow :: t.w.db.users == s.w.db.users[u.id := u])
            && (t.w.db.links == s.w.db.links || exists l: LinkRow :: t.w.db.links == s.w.db.links[l.id := l])
            && (a.Advance? && Enabled(s, a) && !s.pcs[a.id].Done? && t.pcs[a.id] == Done(TransactionFailed) ==> t.w == s.w)
  {
    hide Run, Consistent, Extends, Initial, StepWith, Fits, FreshRequest;
    hide StoreOk, CallsOk, SidsDistinct, CreationsDistinct;
    InitialInv(cfg, s0);
    Reachable(cfg, s0, acts);
    var s := Run(cfg, s0, acts);
    InvKept(cfg, s, a);
    if Enabled(s, a) && a.Advance? {
      if s.pcs[a.id].Done? { DoneStays(cfg, s, a.id, a.published); }
      else { CommandOnRows(cfg, s.w, s.reqs[a.id], s.pcs[a.id], a.published); }
    }
  }

  ghost predicate AtMostOneMore(db: Db, db': Db) {
    && (db'.users == db.users || exists u: UserRow :: db'.users == db.users[u.id := u])
    && (db'.links == db.links || exists l: LinkRow :: db'.links == db.links[l.id := l])
  }

  lemma CommandOnRows(cfg: Config, w: World, req: Request, pc: Pc, published: KafkaProducer.Outcome)
    requires Fits(req, pc) && !pc.Done?
    ensures var (w', pc') := StepWith(cfg, w, req, pc, published);
            AtMostOneMore(w.db, w'.db) && (pc' == Done(TransactionFailed) ==> w' == w)
  {
    Dispatch(cfg, w, req, pc, published);
    hide StepWith, Fits;
    if SendPc(pc) { }
    else if VerifyPc(pc) { VerifyOnRows(cfg, w, req, pc); }
    else if SignInPc(pc) { SignInOnRows(cfg, w, req, pc); }
    else if RotatePc(pc) { }
  }

  lemma VerifyOnRows(cfg: Config, w: World, req: Request, pc: Pc)
    requires req.VerifyOTP? && VerifyPc(pc)
    ensures AtMostOneMore(w.db, StepVerify(cfg, w, req, pc).0.db) && StepVerify(cfg, w, req, pc).1 != Done(TransactionFailed)
  {
    if pc.VerifyCreate? {
      var u := NewUser(req.newId, pc.meta);
      assert InsertUser(w.db, u).Some? ==> InsertUser(w.db, u).value.users == w.db.users[u.id := u];
    }
  }

  lemma SignInOnRows(cfg: Config, w: World, req: Request, pc: Pc)
    requires SignInPc(pc) && SignInFits(req, pc)
    ensures var (w', pc') := StepSignIn(cfg, w, req, pc);
            AtMostOneMore(w.db, w'.db) && (pc' == Done(TransactionFailed) ==> w' == w)
  {
    hide LinkByIdentity, UserByEmail, StepGoogle;
    if pc.GoogleLink? || pc.GoogleCreate? { GoogleOnRows(cfg, w, req, pc); }
    else if pc.GoogleFindLink? || pc.GoogleFindUser? { GoogleReads(cfg, w, req, pc); }
  }

  lemma GoogleReads(cfg: Config, w: World, req: Request, pc: Pc)
    requires SignInFits(req, pc) && (pc.GoogleFindLink? || pc.GoogleFindUser?)
    ensures StepGoogle(cfg, w, req, pc).0 == w
  {
    hide LinkByIdentity, UserByEmail;
  }

  lemma GoogleOnRows(cfg: Config, w: World, req: Request, pc: Pc)
    requires SignInFits(req, pc) && (pc.GoogleLink? || pc.GoogleCreate?)
    ensures var (w', pc') := StepGoogle(cfg, w, req, pc);
            AtMostOneMore(w.db, w'.db) && (pc' == Done(TransactionFailed) ==> w' == w)
  {
    if pc.GoogleLink? {
      var l := GoogleLinkTo(req, pc.user.id);
      assert InsertLink(w.db, l).Some? ==> InsertLink(w.db, l).value.links == w.db.links[l.id := l];
    } else {
      var u, l := GoogleUser(req), GoogleLinkTo(req, req.newId);
      if InsertBoth(w.db, u, l).Some? {
        assert InsertBoth(w.db, u, l).value.users == w.db.users[u.id := u];
        assert InsertBoth(w.db, u, l).value.links == w.db.links[l.id := l];
      }
    }
  }

  // ---- the user cache ----

  /** What a lookup without a cache returns. */
  function PlainLookup(db: Db, id: string): Option<Profile> {
    if id in db.users then Some(Public(db.users[id])) else None
  }

  /** A lookup's cache entry, if there is one, is the row's public profile. */
  predicate CacheEntryAgrees(w: World, id: string) {
    User(id) in w.store ==>
      w.store[User(id)].value.CachedUser? && PlainLookup(w.db, id) == Some(w.store[User(id)].value.profile)
  }

  function LookupResponse(db: Db, id: string): Response {
    match PlainLookup(db, id) case Some(p) => Found(p) case None => NotFound
  }

  lemma InvAgrees(cfg: Config, s: Sys, id: string)
    requires Inv(cfg, s)
    ensures CacheEntryAgrees(s.w, id)
  {
    hide CallsOk, Consistent, SidsDistinct, CreationsDistinct;
    assert User(id) in s.w.store ==> EntryOk(cfg, s.w.db, s.reqs, User(id), s.w.store[User(id)].value);
  }

  lemma AnswersAgree(cfg: Config, s: Sys, t: CallId)
    requires Inv(cfg, s) && t in s.pcs && s.pcs[t].Done? && s.pcs[t].response.Found?
    ensures t in s.reqs && s.reqs[t].GetUser? && s.pcs[t].response == LookupResponse(s.w.db, s.reqs[t].userId)
  {
    DoneIsOk(cfg, s, t);
    hide CallsOk, Consistent, StoreOk, SidsDistinct, CreationsDistinct;
  }

  /**
   In every reachable state a cached profile is the public profile of the row with that id, so
   a lookup at that moment answers what the database alone would answer, whether the cache
   works or not; and an answer given by an overlapping lookup still agrees with the database.
   */
  lemma CacheAgreesWithDatabase(cfg: Config, s0: Sys, acts: seq<Action>, id: string, readable: bool, writable: bool, t: CallId)
    requires Initial(s0) && id != ""
    ensures var s := Run(cfg, s0, acts);
            && CacheEntryAgrees(s.w, id)
            && Apply(cfg, s.w, GetUser(id, readable, writable)).1 == LookupResponse(s.w.db, id)
            && (t in s.pcs && s.pcs[t].Done? && s.pcs[t].response.Found? ==>
                  t in s.reqs && s.reqs[t].GetUser? && s.pcs[t].response == LookupResponse(s.w.db, s.reqs[t].userId))
  {
    hide *;
    InitialInv(cfg, s0);
    Reachable(cfg, s0, acts);
    var s := Run(cfg, s0, acts);
    InvAgrees(cfg, s, id);
    if t in s.pcs && s.pcs[t].Done? && s.pcs[t].response.Found? { AnswersAgree(cfg, s, t); }
    LookupIsPlain(cfg, Run(cfg, s0, acts).w, GetUser(id, readable, writable));
  }

  lemma LookupIsPlain(cfg: Config, w: World, req: Request)
    requires req.GetUser? && req.userId != "" && CacheEntryAgrees(w, req.userId)
    ensures Apply(cfg, w, req).1 == LookupResponse(w.db, req.userId)
  {
    Atomic.GetUserEffect(cfg, w, req);
    hide Apply;
  }

  /** The account of a verified signup is looked up with the details given at signup. */
  lemma AccountIsLookedUpAsSignedUp(cfg: Config, s0: Sys, acts: seq<Action>, v: CallId, t: CallId) returns (a: CallId)
    requires Initial(s0)
    requires var s := Run(cfg, s0, acts);
             && CreatedAt(s, v) && t in s.pcs && t in s.reqs && s.pcs[t].Done? && s.pcs[t].response.Found?
             && s.reqs[t].GetUser? && s.reqs[v].VerifyOTP? && s.reqs[t].userId == s.reqs[v].newId
    ensures var s := Run(cfg, s0, acts);
            && Opened(s.reqs, a, s.reqs[v], s.pcs[v].response.user)
            && s.pcs[t].response.profile ==
                 Profile(s.reqs[v].newId, s.reqs[a].firstName, s.reqs[a].lastName, s.reqs[a].email, true)
  {
    hide Run, Inv, Initial;
    InitialInv(cfg, s0);
    Reachable(cfg, s0, acts);
    a := CreationWasOpened(cfg, Run(cfg, s0, acts), v);
    AnswersAgree(cfg, Run(cfg, s0, acts), t);
  }

  // ---- how long the cache serves ----

  /** The command writes the cache entry of this user. */
  predicate Fills(req: Request, pc: Pc, id: string) {
    || (pc.SignInCache? && pc.user.id == id)
    || (pc.CacheFill? && req.GetUser? && req.userId == id && req.writable)
  }

  ghost predicate FillsAt(s: Sys, a: Action, id: string) { Commands(s, a) && Fills(s.reqs[a.id], s.pcs[a.id], id) }

  /** The entry lasts at least to this time. */
  predicate LastsTo(store: Store, id: string, time: int) {
    User(id) in store && (store[User(id)].deadline.Some? ==> time <= store[User(id)].deadline.value)
  }

  lemma FillCommand(cfg: Config, w: World, req: Request, pc: Pc, published: KafkaProducer.Outcome, id: string)
    requires Fits(req, pc) && !pc.Done? && Fills(req, pc, id)
    ensures LastsTo(StepWith(cfg, w, req, pc, published).0.store, id, w.now + Seconds(cfg.redisUserTTL))
  {
    Dispatch(cfg, w, req, pc, published);
    hide StepWith, StepGoogle;
  }

  lemma OtherFootprint(cfg: Config, w: World, req: Request, pc: Pc, published: KafkaProducer.Outcome, id: string)
    requires Fits(req, pc) && !pc.Done? && !Fills(req, pc, id)
    ensures SameEntry(w.store, StepWith(cfg, w, req, pc, published).0.store, User(id))
  {
    if pc.CacheFill? {
      Dispatch(cfg, w, req, pc, published);
      hide StepWith;
    } else {
      assert User(id) !in Footprint(req, pc);
      hide StepWith, Fits;
      CommandFootprint(cfg, w, req, pc, published, User(id));
    }
  }

  lemma LastingStep(cfg: Config, s: Sys, a: Action, id: string, time: int)
    requires time <= s.w.now + Seconds(cfg.redisUserTTL)
    requires LastsTo(s.w.store, id, time) || FillsAt(s, a, id)
    ensures LastsTo(Exec(cfg, s, a).w.store, id, time)
  {
    hide StepWith, Fits, Fills, FreshRequest;
    if Commands(s, a) {
      if FillsAt(s, a, id) { FillCommand(cfg, s.w, s.reqs[a.id], s.pcs[a.id], a.published, id); }
      else { OtherFootprint(cfg, s.w, s.reqs[a.id], s.pcs[a.id], a.published, id); }
    } else if a.Advance? && Enabled(s, a) {
      DoneStays(cfg, s, a.id, a.published);
    }
  }

  lemma {:induction false} LastsFrom(cfg: Config, s0: Sys, acts: seq<Action>, n: nat, k: nat, id: string)
    requires n < k <= |acts| && FillsAt(StateAt(cfg, s0, acts, n), acts[n], id)
    ensures var now := StateAt(cfg, s0, acts, n).w.now;
            now <= StateAt(cfg, s0, acts, k).w.now && LastsTo(StateAt(cfg, s0, acts, k).w.store, id, now + Seconds(cfg.redisUserTTL))
  {
    hide Exec, FillsAt, LastsTo;
    TimeGoesOn(cfg, StateAt(cfg, s0, acts, k - 1), acts[k - 1]);
    if n + 1 < k { LastsFrom(cfg, s0, acts, n, k - 1, id); }
    LastingStep(cfg, StateAt(cfg, s0, acts, k - 1), acts[k - 1], id,
                StateAt(cfg, s0, acts, n).w.now + Seconds(cfg.redisUserTTL));
  }

  /**
   In every interleaving: for the cache lifetime after a sign-in to an account, or a lookup of
   it that could write the cache, every lookup that can read the cache is answered from it in
   one command, with what the database holds.
   */
  lemma CacheServesForItsLifetime(cfg: Config, s0: Sys, acts: seq<Action>, n: nat, k: nat, id: string)
    requires Initial(s0) && n < k < |acts| && FillsAt(StateAt(cfg, s0, acts, n), acts[n], id)
    requires StateAt(cfg, s0, acts, k).w.now < StateAt(cfg, s0, acts, n).w.now + Seconds(cfg.redisUserTTL)
    requires var s := StateAt(cfg, s0, acts, k);
             && Commands(s, acts[k]) && s.pcs[acts[k].id].CacheGet? && s.reqs[acts[k].id].GetUser?
             && s.reqs[acts[k].id].userId == id && s.reqs[acts[k].id].readable
    ensures var s := StateAt(cfg, s0, acts, k);
            && id in s.w.db.users
            && Exec(cfg, s, acts[k]).pcs[acts[k].id] == Done(Found(Public(s.w.db.users[id])))
  {
    hide StateAt, Exec, Initial, Inv, FillsAt, Fits, Run;
    var s := StateAt(cfg, s0, acts, k);
    LastsFrom(cfg, s0, acts, n, k, id);
    StateAtIsRun(cfg, s0, acts, k);
    InitialInv(cfg, s0);
    Reachable(cfg, s0, acts[..k]);
    InvAgrees(cfg, s, id);
    HitCommand(cfg, s, acts[k], id);
  }

  lemma HitCommand(cfg: Config, s: Sys, a: Action, id: string)
    requires Commands(s, a) && s.pcs[a.id].CacheGet? && s.reqs[a.id].GetUser? && s.reqs[a.id].userId == id && s.reqs[a.id].readable
    requires CacheEntryAgrees(s.w, id) && Live(s.w.store, User(id), s.w.now)
    ensures id in s.w.db.users && Exec(cfg, s, a).pcs[a.id] == Done(Found(Public(s.w.db.users[id])))
  {
    Dispatch(cfg, s.w, s.reqs[a.id], s.pcs[a.id], a.published);
    hide StepWith;
  }
}
