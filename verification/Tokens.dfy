/**
 The tokens that the service answers with, in every interleaving: what the two verifiers say
 of them at any time, for whom, and which presented tokens a rotation takes at all.
 */
module Tokens {
  import opened Wrappers
  import opened GoTime
  import opened Model
  import opened Service
  import opened Interleaved

  /**
   What the verifiers say, now, of a pair of tokens issued at some time: each passes for its
   user under its own secret until its own whole-second expiry, and, where the secrets differ,
   never under the other one.
   */
  predicate VerifiesNow(cfg: Config, access: Token, refresh: Token, user: string, jti: string, issued: int, now: int) {
    var accessExp := NumericDate(issued + Seconds(cfg.accessTokenExp));
    var refreshExp := NumericDate(issued + Seconds(cfg.refreshTokenExp));
    && VerifyAccessToken(access, cfg, now) ==
         (if cfg.jwtAccessSecret != "" && now < accessExp then Some(Claims(user, "", Some(accessExp))) else None)
    && VerifyRefreshToken(refresh, cfg, now) ==
         (if cfg.jwtRefreshSecret != "" && now < refreshExp then Some(Claims(user, jti, Some(refreshExp))) else None)
    && (cfg.jwtAccessSecret != cfg.jwtRefreshSecret ==>
          VerifyRefreshToken(access, cfg, now) == None && VerifyAccessToken(refresh, cfg, now) == None)
  }

  ghost predicate VerifiesAs(cfg: Config, access: Token, refresh: Token, user: string, jti: string, issued: int) {
    forall now :: VerifiesNow(cfg, access, refresh, user, jti, issued, now)
  }

  lemma GeneratedVerify(cfg: Config, user: string, jti: string, issued: int)
    ensures VerifiesAs(cfg, GenerateAccessToken(user, cfg, issued), GenerateRefreshToken(user, cfg, issued, jti), user, jti, issued)
  {
    var access, refresh := GenerateAccessToken(user, cfg, issued), GenerateRefreshToken(user, cfg, issued, jti);
    hide VerifyAccessToken, VerifyRefreshToken, GenerateAccessToken, GenerateRefreshToken, NumericDate;
    forall now ensures VerifiesNow(cfg, access, refresh, user, jti, issued, now) {
      AccessTokenVerifiesExactly(user, cfg, issued, now);
      RefreshTokenVerifiesExactly(user, cfg, issued, jti, now);
      if cfg.jwtAccessSecret != cfg.jwtRefreshSecret { KindsAreApart(user, cfg, issued, jti, now); }
    }
  }

  predicate HasJti(req: Request) { req.Login? || req.Rotate? || req.Google? }

  predicate Issuing(pc: Pc) { pc.SignInRefresh? || pc.RotateStore? }

  /** Action n is the command of call t that issues its tokens. */
  ghost predicate IssuesAt(cfg: Config, s0: Sys, acts: seq<Action>, n: nat, t: CallId) {
    n < |acts| && acts[n].Advance? && acts[n].id == t &&
    var s := StateAt(cfg, s0, acts, n); Commands(s, acts[n]) && Issuing(s.pcs[t])
  }

  /** Action n is the command of rotation t that checks the token it presents. */
  ghost predicate ChecksAt(cfg: Config, s0: Sys, acts: seq<Action>, n: nat, t: CallId) {
    n < |acts| && acts[n].Advance? && acts[n].id == t &&
    var s := StateAt(cfg, s0, acts, n); Commands(s, acts[n]) && s.pcs[t].RotateRead?
  }

  /** The tokens were issued by a command of call t before moment i, for this user and with the call's own JTI. */
  ghost predicate Issued(cfg: Config, s0: Sys, acts: seq<Action>, i: nat, t: CallId, req: Request,
                         access: Token, refresh: Token, user: string)
    requires i <= |acts|
  {
    HasJti(req) &&
    exists n: nat | n < i :: IssuesAt(cfg, s0, acts, n, t) &&
      VerifiesAs(cfg, access, refresh, user, req.jti, StateAt(cfg, s0, acts, n).w.now)
  }

  /** The rotation presented a genuine refresh token of this user: signed by HMAC under the refresh secret and not expired. */
  ghost predicate Presented(cfg: Config, s0: Sys, acts: seq<Action>, i: nat, t: CallId, req: Request, user: string)
    requires i <= |acts|
  {
    req.Rotate? && req.token.Signed? && req.token.claims.userId == user &&
    exists n: nat | n < i :: ChecksAt(cfg, s0, acts, n, t) &&
      Genuine(req.token, cfg.jwtRefreshSecret, StateAt(cfg, s0, acts, n).w.now)
  }

  ghost predicate TokensOk(cfg: Config, s0: Sys, acts: seq<Action>, i: nat, t: CallId, req: Request, pc: Pc)
    requires i <= |acts|
  {
    match pc
    case RotateRevoke(owner) => Presented(cfg, s0, acts, i, t, req, owner)
    case RotateStore(owner) => Presented(cfg, s0, acts, i, t, req, owner)
    case SignInCache(user, access, refresh) => Issued(cfg, s0, acts, i, t, req, access, refresh, user.id)
    case Done(SignedIn(access, refresh, profile)) => Issued(cfg, s0, acts, i, t, req, access, refresh, profile.id)
    case Done(Rotated(access, refresh)) =>
      && req.Rotate? && req.token.Signed? && Presented(cfg, s0, acts, i, t, req, req.token.claims.userId)
      && Issued(cfg, s0, acts, i, t, req, access, refresh, req.token.claims.userId)
    case _ => true
  }

  // ---- one command ----

  /** A rotation that presents anything but a genuine refresh token is answered TokenInvalid and changes nothing. */
  lemma CheckDecides(cfg: Config, s: Sys, a: Action)
    requires Commands(s, a) && s.pcs[a.id].RotateRead?
    ensures s.reqs[a.id].Rotate?
    ensures var token, pc' := s.reqs[a.id].token, Exec(cfg, s, a).pcs[a.id];
            && Exec(cfg, s, a).w == s.w
            && (!Genuine(token, cfg.jwtRefreshSecret, s.w.now) <==> pc' == Done(TokenInvalid))
            && (pc'.RotateStore? || pc'.RotateRevoke? ==> token.Signed? && pc'.owner == token.claims.userId)
            && (pc'.Done? ==> pc'.response.TokenInvalid? || pc'.response.SessionExpired?)
            && (pc'.Done? || pc'.RotateStore? || pc'.RotateRevoke?)
  {
    VerifiesExactlyTheGenuine(s.reqs[a.id].token, cfg.jwtRefreshSecret, s.w.now);
    Dispatch(cfg, s.w, s.reqs[a.id], s.pcs[a.id], a.published);
    hide StepWith, Fits, VerifyToken;
  }

  lemma IssuingCommand(cfg: Config, s: Sys, a: Action)
    requires Commands(s, a) && Issuing(s.pcs[a.id])
    ensures var req, pc, pc' := s.reqs[a.id], s.pcs[a.id], Exec(cfg, s, a).pcs[a.id];
            var user := if pc.SignInRefresh? then pc.user.id else pc.owner;
            && HasJti(req) && (pc.RotateStore? ==> req.Rotate?)
            && (if pc.SignInRefresh?
                then pc' == SignInCache(pc.user, GenerateAccessToken(user, cfg, s.w.now), GenerateRefreshToken(user, cfg, s.w.now, req.jti))
                else pc' == Done(Rotated(GenerateAccessToken(user, cfg, s.w.now), GenerateRefreshToken(user, cfg, s.w.now, req.jti))))
  {
    Dispatch(cfg, s.w, s.reqs[a.id], s.pcs[a.id], a.published);
    hide StepWith, GenerateAccessToken, GenerateRefreshToken;
  }

  /** Every other command issues nothing and passes on what it was given. */
  lemma OtherCommand(cfg: Config, s: Sys, a: Action)
    requires Commands(s, a) && !Issuing(s.pcs[a.id]) && !s.pcs[a.id].RotateRead?
    ensures var pc, pc' := s.pcs[a.id], Exec(cfg, s, a).pcs[a.id];
            && !pc'.RotateRevoke? && !pc'.RotateStore? && !pc'.SignInCache? && !(pc'.Done? && pc'.response.Rotated?)
            && (pc'.Done? && pc'.response.SignedIn? ==>
                  pc.SignInCache? && pc'.response.access == pc.access && pc'.response.refresh == pc.refresh &&
                  pc'.response.profile.id == pc.user.id)
  {
    Dispatch(cfg, s.w, s.reqs[a.id], s.pcs[a.id], a.published);
    hide StepWith, StepGoogle, StepRotate;
    if SignInPc(s.pcs[a.id]) && !s.pcs[a.id].SignInCache? && !s.pcs[a.id].LoginLookup? {
      GoogleCommand(cfg, s.w, s.reqs[a.id], s.pcs[a.id]);
    }
    if s.pcs[a.id].RotateRevoke? { RevokingCommand(cfg, s.w, s.reqs[a.id], s.pcs[a.id]); }
  }

  lemma GoogleCommand(cfg: Config, w: World, req: Request, pc: Pc)
    requires SignInFits(req, pc) && (pc.GoogleFindLink? || pc.GoogleFindUser? || pc.GoogleLink? || pc.GoogleCreate?)
    ensures var pc' := StepGoogle(cfg, w, req, pc).1;
            (pc'.Done? && pc'.response.TransactionFailed?) || pc'.GoogleFindUser? || pc'.GoogleLink? || pc'.GoogleCreate? ||
            pc'.SignInRefresh?
  {
  }

  lemma RevokingCommand(cfg: Config, w: World, req: Request, pc: Pc)
    requires req.Rotate? && pc.RotateRevoke?
    ensures StepRotate(cfg, w, req, pc).1 == Done(SessionExpired)
  {
  }

  // ---- whole runs ----

  lemma TokensOkLater(cfg: Config, s0: Sys, acts: seq<Action>, i: nat, t: CallId, req: Request, pc: Pc)
    requires i < |acts| && TokensOk(cfg, s0, acts, i, t, req, pc)
    ensures TokensOk(cfg, s0, acts, i + 1, t, req, pc)
  {
    hide IssuesAt, ChecksAt, VerifiesAs, Genuine, StateAt;
  }

  lemma OwnCheck(cfg: Config, s0: Sys, acts: seq<Action>, i: nat, t: CallId)
    requires ChecksAt(cfg, s0, acts, i, t)
    ensures var s := StateAt(cfg, s0, acts, i);
            TokensOk(cfg, s0, acts, i + 1, t, s.reqs[t], Exec(cfg, s, acts[i]).pcs[t])
  {
    hide StateAt, Exec, Genuine, Issued, Fits;
    CheckDecides(cfg, StateAt(cfg, s0, acts, i), acts[i]);
  }

  lemma OwnIssue(cfg: Config, s0: Sys, acts: seq<Action>, i: nat, t: CallId)
    requires IssuesAt(cfg, s0, acts, i, t)
    requires var s := StateAt(cfg, s0, acts, i); TokensOk(cfg, s0, acts, i, t, s.reqs[t], s.pcs[t])
    ensures var s := StateAt(cfg, s0, acts, i);
            TokensOk(cfg, s0, acts, i + 1, t, s.reqs[t], Exec(cfg, s, acts[i]).pcs[t])
  {
    var s := StateAt(cfg, s0, acts, i);
    TokensOkLater(cfg, s0, acts, i, t, s.reqs[t], s.pcs[t]);
    hide StateAt, Exec, VerifiesAs, Genuine, GenerateAccessToken, GenerateRefreshToken, Fits, ChecksAt;
    IssuingCommand(cfg, s, acts[i]);
    GeneratedVerify(cfg, if s.pcs[t].SignInRefresh? then s.pcs[t].user.id else s.pcs[t].owner, s.reqs[t].jti, s.w.now);
  }

  lemma OwnTokens(cfg: Config, s0: Sys, acts: seq<Action>, i: nat, t: CallId)
    requires i < |acts| && acts[i].Advance? && acts[i].id == t && Commands(StateAt(cfg, s0, acts, i), acts[i])
    requires var s := StateAt(cfg, s0, acts, i); TokensOk(cfg, s0, acts, i, t, s.reqs[t], s.pcs[t])
    ensures var s := StateAt(cfg, s0, acts, i);
            TokensOk(cfg, s0, acts, i + 1, t, s.reqs[t], Exec(cfg, s, acts[i]).pcs[t])
  {
    var s := StateAt(cfg, s0, acts, i);
    if s.pcs[t].RotateRead? {
      OwnCheck(cfg, s0, acts, i, t);
    } else if Issuing(s.pcs[t]) {
      OwnIssue(cfg, s0, acts, i, t);
    } else {
      TokensOkLater(cfg, s0, acts, i, t, s.reqs[t], s.pcs[t]);
      hide StateAt, Exec, Issued, Presented;
      OtherCommand(cfg, s, acts[i]);
    }
    hide *;
  }

  lemma StartIssuesNothing(cfg: Config, s0: Sys, acts: seq<Action>, i: nat, t: CallId, req: Request)
    requires i <= |acts|
    ensures TokensOk(cfg, s0, acts, i, t, req, Start(req))
  {
  }

  lemma {:induction false} TokensAreOk(cfg: Config, s0: Sys, acts: seq<Action>, i: nat, t: CallId)
    requires i <= |acts| && s0.pcs == map[] && s0.reqs == map[]
    ensures var s := StateAt(cfg, s0, acts, i);
            && s.pcs.Keys == s.reqs.Keys
            && (t in s.pcs ==> TokensOk(cfg, s0, acts, i, t, s.reqs[t], s.pcs[t]))
  {
    hide TokensOk, StepWith, Fits, FreshRequest, Start;
    if i > 0 {
      TokensAreOk(cfg, s0, acts, i - 1, t);
      var s, a := StateAt(cfg, s0, acts, i - 1), acts[i - 1];
      RequestsStay(cfg, s, a, t);
      if a.Advance? && a.id == t && Commands(s, a) {
        OwnTokens(cfg, s0, acts, i - 1, t);
      } else if t in s.pcs {
        PcStays(cfg, s, a, t);
        TokensOkLater(cfg, s0, acts, i - 1, t, s.reqs[t], s.pcs[t]);
      } else if a.Begin? && a.id == t {
        StartIssuesNothing(cfg, s0, acts, i, t, a.req);
      }
    }
  }

  lemma PcStays(cfg: Config, s: Sys, a: Action, t: CallId)
    requires t in s.pcs && !(a.Advance? && a.id == t && Commands(s, a))
    ensures t in Exec(cfg, s, a).pcs && Exec(cfg, s, a).pcs[t] == s.pcs[t]
  {
    if a.Advance? && a.id == t && Enabled(s, a) { DoneStays(cfg, s, t, a.published); }
    hide StepWith, Fits;
  }

  /**
   However the calls interleave: the tokens of a SignedIn answer verify for the account in the
   answer, those of a Rotated answer for the user of the presented token, each as from the
   moment the call issued them; and a rotation only ever succeeds on a genuine refresh token.
   */
  lemma AnsweredTokensVerify(cfg: Config, s0: Sys, acts: seq<Action>, i: nat, t: CallId)
    requires i <= |acts| && Initial(s0)
    requires var s := StateAt(cfg, s0, acts, i); t in s.pcs && s.pcs[t].Done?
    ensures var s := StateAt(cfg, s0, acts, i);
            && t in s.reqs
            && match s.pcs[t].response
               case SignedIn(access, refresh, profile) => Issued(cfg, s0, acts, i, t, s.reqs[t], access, refresh, profile.id)
               case Rotated(access, refresh) =>
                 && s.reqs[t].Rotate? && s.reqs[t].token.Signed?
                 && Presented(cfg, s0, acts, i, t, s.reqs[t], s.reqs[t].token.claims.userId)
                 && Issued(cfg, s0, acts, i, t, s.reqs[t], access, refresh, s.reqs[t].token.claims.userId)
               case _ => true
  {
    TokensAreOk(cfg, s0, acts, i, t);
    hide StateAt, Issued, Presented;
  }
}
