/**
 The read and the write of a rotation are separate commands, so the failing side of
 SingleUse.SingleUseExactly is real: in every state whose slot holds the token's JTI, two
 overlapping rotations that both read first both succeed, and a sign-in leads to such a state.
 */
module RotationRace {
  import opened Wrappers
  import opened GoTime
  import opened Model
  import opened Tables
  import opened Service
  import opened Interleaved
  import opened Serial
  import opened Sessions
  import opened SingleUse
  import Atomic
  import KafkaProducer

  function Move(id: CallId): Action { Advance(id, KafkaProducer.Delivered) }

  /** The slot of the request's device and of the user its token names holds the token's JTI. */
  predicate HoldsItsJti(cfg: Config, w: World, req: Request) {
    && req.Rotate?
    && var c := VerifyRefreshToken(req.token, cfg, w.now);
       c.Some? && c.value.jti != "" && Atomic.SlotHolds(w, req.device, c.value.userId, c.value.jti)
  }

  predicate Fresh(s: Sys, id: CallId) { id !in s.reqs && id !in s.pcs }

  lemma BeginRotation(cfg: Config, s: Sys, id: CallId, req: Request)
    requires Fresh(s, id) && HoldsItsJti(cfg, s.w, req)
    ensures Exec(cfg, s, Begin(id, req)) == s.(reqs := s.reqs[id := req], pcs := s.pcs[id := RotateRead])
  {
    assert !req.token.Empty?;
  }

  lemma ReadRotation(cfg: Config, s: Sys, id: CallId)
    requires id in s.reqs && id in s.pcs && s.pcs[id].RotateRead? && HoldsItsJti(cfg, s.w, s.reqs[id])
    ensures var user := VerifyRefreshToken(s.reqs[id].token, cfg, s.w.now).value.userId;
            Exec(cfg, s, Move(id)) == s.(pcs := s.pcs[id := RotateStore(user)])
  {
    Dispatch(cfg, s.w, s.reqs[id], s.pcs[id], KafkaProducer.Delivered);
    hide StepWith;
  }

  lemma StoreRotation(cfg: Config, s: Sys, id: CallId)
    requires id in s.reqs && id in s.pcs && s.pcs[id].RotateStore? && s.reqs[id].Rotate?
    ensures var t := Exec(cfg, s, Move(id));
            && t.reqs == s.reqs && id in t.pcs && t.pcs == s.pcs[id := t.pcs[id]]
            && t.pcs[id].Done? && t.pcs[id].response.Rotated?
  {
    Dispatch(cfg, s.w, s.reqs[id], s.pcs[id], KafkaProducer.Delivered);
    hide StepWith;
  }

  lemma SixSteps(cfg: Config, s: Sys, a: Action, b: Action, c: Action, d: Action, e: Action, f: Action)
    ensures Run(cfg, s, [a, b, c, d, e, f]) ==
            Exec(cfg, Exec(cfg, Exec(cfg, Exec(cfg, Exec(cfg, Exec(cfg, s, a), b), c), d), e), f)
  {
    ThreeSteps(cfg, s, a, b, c, [d, e, f]);
    ThreeSteps(cfg, Exec(cfg, Exec(cfg, Exec(cfg, s, a), b), c), d, e, f, []);
    assert [a, b, c] + [d, e, f] == [a, b, c, d, e, f] && [d, e, f] + [] == [d, e, f];
    hide Exec;
  }

  /** In every state, two overlapping rotations that bring the slot's current token both succeed when both read first. */
  lemma OverlappingRotationsBothSucceed(cfg: Config, s: Sys, a: CallId, b: CallId, first: Request, second: Request)
    requires a != b && Fresh(s, a) && Fresh(s, b)
    requires HoldsItsJti(cfg, s.w, first) && second.Rotate? && second.token == first.token && second.device == first.device
    ensures var t := Run(cfg, s, [Begin(a, first), Begin(b, second), Move(a), Move(b), Move(a), Move(b)]);
            && a in t.pcs && t.pcs[a].Done? && t.pcs[a].response.Rotated?
            && b in t.pcs && t.pcs[b].Done? && t.pcs[b].response.Rotated?
            && t.reqs == s.reqs[a := first][b := second]
  {
    SixSteps(cfg, s, Begin(a, first), Begin(b, second), Move(a), Move(b), Move(a), Move(b));
    hide Run, Exec, VerifyRefreshToken, Atomic.SlotHolds, Move;
    BeginRotation(cfg, s, a, first);
    var s1 := Exec(cfg, s, Begin(a, first));
    BeginRotation(cfg, s1, b, second);
    var s2 := Exec(cfg, s1, Begin(b, second));
    ReadRotation(cfg, s2, a);
    var s3 := Exec(cfg, s2, Move(a));
    ReadRotation(cfg, s3, b);
    var s4 := Exec(cfg, s3, Move(b));
    StoreRotation(cfg, s4, a);
    StoreRotation(cfg, Exec(cfg, s4, Move(a)), b);
  }

  // ---- a run that gets there ----

  const ROW := UserRow("u", "f", "l", "a@b", Some(Bcrypt("p")), true)
  const START := Sys(World(0, map[], Db(map["u" := ROW], map[])), map[], map[])
  const SIGN_IN := Login("a@b", "p", "d", "j0")

  /** A rotation that presents one JTI and would issue another. */
  function TokenWith(cfg: Config, presented: string, jti: string): Request {
    Rotate(GenerateRefreshToken("u", cfg, 0, presented), "d", jti)
  }

  function Rotation(cfg: Config, jti: string): Request { TokenWith(cfg, "j0", jti) }

  lemma StartIsInitial()
    ensures Initial(START)
  {
  }

  lemma SignInSucceeds(cfg: Config)
    ensures Apply(cfg, START.w, SIGN_IN).0 == START.w.(store := Atomic.SignedInStore(cfg, START.w, "d", "j0", Public(ROW)))
  {
    var found := UserByEmail(START.w.db, "a@b");
    assert found == Some(ROW) by { assert START.w.db.users["u"] == ROW; }
    Atomic.Unroll(cfg, START.w, SIGN_IN, LoginLookup);
    Atomic.SignInTail(cfg, START.w, SIGN_IN, ROW);
    hide Finish, Atomic.SignedInStore;
  }

  /** After the sign-in the slot holds the JTI of a token that verifies, whenever tokens live at least a second. */
  lemma SignInOpensSlot(cfg: Config, jti: string)
    requires cfg.jwtRefreshSecret != "" && Seconds(cfg.refreshTokenExp) >= SECOND
    ensures HoldsItsJti(cfg, Apply(cfg, START.w, SIGN_IN).0, Rotation(cfg, jti))
  {
    SignInSucceeds(cfg);
    hide Apply;
    RefreshTokenVerifiesExactly("u", cfg, 0, "j0", 0);
    assert "j0"[0] == 'j';
  }

  /**
   From an initial state with one account, for every configuration in which tokens live at
   least a second: a sign-in and two rotations with its token, all JTIs different, in which
   both rotations answer Rotated.
   */
  lemma RaceIsReachable(cfg: Config) returns (acts: seq<Action>)
    requires cfg.jwtRefreshSecret != "" && Seconds(cfg.refreshTokenExp) >= SECOND
    ensures Initial(START)
    ensures var s := Run(cfg, START, acts);
            && JtisDistinct(s.reqs) && Presents(s, 1, "j0") && Presents(s, 2, "j0")
            && HasRotated(s, 1) && HasRotated(s, 2)
  {
    StartIsInitial();
    SignInOpensSlot(cfg, "j1");
    hide Apply, Run, HoldsItsJti, Exec, Initial;
    var signIn := AtomicCallIsARun(cfg, START, 0, SIGN_IN);
    var race := [Begin(1, Rotation(cfg, "j1")), Begin(2, Rotation(cfg, "j2")), Move(1), Move(2), Move(1), Move(2)];
    acts := signIn + race;
    RunAppend(cfg, START, signIn, race);
    var s := Run(cfg, START, signIn);
    OverlappingRotationsBothSucceed(cfg, s, 1, 2, Rotation(cfg, "j1"), Rotation(cfg, "j2"));
    RaceRequests(cfg, s);
  }

  lemma RaceRequests(cfg: Config, s: Sys)
    requires s.reqs == map[0 := SIGN_IN]
    requires Run(cfg, s, [Begin(1, Rotation(cfg, "j1")), Begin(2, Rotation(cfg, "j2")), Move(1), Move(2), Move(1), Move(2)]).reqs ==
             map[0 := SIGN_IN, 1 := Rotation(cfg, "j1"), 2 := Rotation(cfg, "j2")]
    ensures var t := Run(cfg, s, [Begin(1, Rotation(cfg, "j1")), Begin(2, Rotation(cfg, "j2")), Move(1), Move(2), Move(1), Move(2)]);
            JtisDistinct(t.reqs) && Presents(t, 1, "j0") && Presents(t, 2, "j0")
  {
    hide Run;
    assert "j0"[1] == '0' && "j1"[1] == '1' && "j2"[1] == '2';
  }

  // ---- a revoked slot that opens again ----

  const SLOT := Slot("d", "u")

  /** Time stands at 0 and the slot holds this JTI, or nothing. */
  ghost predicate SlotIs(cfg: Config, s: Sys, h: Holder) { s.w.now == 0 && Holds(cfg, s.w.store, SLOT, h) }

  predicate TokensLive(cfg: Config) { cfg.jwtRefreshSecret != "" && Seconds(cfg.refreshTokenExp) >= SECOND }

  lemma TokenVerifies(cfg: Config, presented: string, jti: string)
    requires TokensLive(cfg)
    ensures var token := TokenWith(cfg, presented, jti).token;
            VerifyRefreshToken(token, cfg, 0).Some? && VerifyRefreshToken(token, cfg, 0).value.userId == "u" &&
            VerifyRefreshToken(token, cfg, 0).value.jti == presented
  {
    RefreshTokenVerifiesExactly("u", cfg, 0, presented, 0);
  }

  lemma Begins(cfg: Config, s: Sys, id: CallId, presented: string, jti: string, h: Holder)
    requires Fresh(s, id) && SlotIs(cfg, s, h)
    ensures var t := Exec(cfg, s, Begin(id, TokenWith(cfg, presented, jti)));
            && SlotIs(cfg, t, h) && t.reqs == s.reqs[id := TokenWith(cfg, presented, jti)]
            && t.pcs == s.pcs[id := RotateRead]
  {
  }

  /** A read goes on to store when the slot holds the presented JTI, and to revoke when it holds another. */
  lemma Reads(cfg: Config, s: Sys, id: CallId, presented: string, jti: string, held: string)
    requires TokensLive(cfg) && id in s.reqs && s.reqs[id] == TokenWith(cfg, presented, jti)
    requires id in s.pcs && s.pcs[id] == RotateRead && presented != "" && held != "" && SlotIs(cfg, s, Holder(held, 0))
    ensures var t := Exec(cfg, s, Move(id));
            && SlotIs(cfg, t, Holder(held, 0)) && t.reqs == s.reqs
            && t.pcs == s.pcs[id := if presented == held then RotateStore("u") else RotateRevoke("u")]
  {
    TokenVerifies(cfg, presented, jti);
    Dispatch(cfg, s.w, s.reqs[id], s.pcs[id], KafkaProducer.Delivered);
    hide StepWith, VerifyRefreshToken, GenerateRefreshToken;
  }

  /** The write of a rotation, or its revocation. */
  lemma Writes(cfg: Config, s: Sys, id: CallId, presented: string, jti: string, h: Holder)
    requires id in s.reqs && s.reqs[id] == TokenWith(cfg, presented, jti) && id in s.pcs && SlotIs(cfg, s, h)
    requires s.pcs[id] == RotateStore("u") || s.pcs[id] == RotateRevoke("u")
    ensures var t := Exec(cfg, s, Move(id));
            && SlotIs(cfg, t, if s.pcs[id].RotateStore? then Holder(jti, 0) else Nobody) && t.reqs == s.reqs
            && id in t.pcs && t.pcs == s.pcs[id := t.pcs[id]] && t.pcs[id].Done?
            && (s.pcs[id].RotateStore? ==> t.pcs[id].response.Rotated?)
  {
    Dispatch(cfg, s.w, s.reqs[id], s.pcs[id], KafkaProducer.Delivered);
    hide StepWith, GenerateRefreshToken, GenerateAccessToken;
  }

  lemma SignInHolds(cfg: Config)
    ensures var w := Apply(cfg, START.w, SIGN_IN).0;
            w.now == 0 && Holds(cfg, w.store, SLOT, Holder("j0", 0))
  {
    SignInSucceeds(cfg);
    hide Apply;
  }

  /** Both rotations with the first token have read it, one has stored, and a third has found it stale. */
  lemma StaleFound(cfg: Config, s: Sys) returns (t: Sys)
    requires TokensLive(cfg) && s.reqs == map[0 := SIGN_IN] && s.pcs.Keys == {0} && SlotIs(cfg, s, Holder("j0", 0))
    ensures t == Run(cfg, s, [Begin(1, TokenWith(cfg, "j0", "j1")), Begin(2, TokenWith(cfg, "j0", "j2")), Move(1), Move(2),
                              Move(1), Begin(3, TokenWith(cfg, "j0", "j3")), Move(3)])
    ensures SlotIs(cfg, t, Holder("j1", 0)) && Fresh(t, 4)
    ensures 2 in t.pcs && t.pcs[2] == RotateStore("u") && 2 in t.reqs && t.reqs[2] == TokenWith(cfg, "j0", "j2")
    ensures 3 in t.pcs && t.pcs[3] == RotateRevoke("u") && 3 in t.reqs && t.reqs[3] == TokenWith(cfg, "j0", "j3")
  {
    hide Run, Exec, Move, SlotIs, TokenWith, TokensLive;
    Names();
    var b1, b2 := Begin(1, TokenWith(cfg, "j0", "j1")), Begin(2, TokenWith(cfg, "j0", "j2"));
    var b3 := Begin(3, TokenWith(cfg, "j0", "j3"));
    SevenSteps(cfg, s, b1, b2, Move(1), Move(2), Move(1), b3, Move(3));
    Begins(cfg, s, 1, "j0", "j1", Holder("j0", 0));
    var s1 := Exec(cfg, s, b1);
    Begins(cfg, s1, 2, "j0", "j2", Holder("j0", 0));
    var s2 := Exec(cfg, s1, b2);
    Reads(cfg, s2, 1, "j0", "j1", "j0");
    var s3 := Exec(cfg, s2, Move(1));
    Reads(cfg, s3, 2, "j0", "j2", "j0");
    var s4 := Exec(cfg, s3, Move(2));
    Writes(cfg, s4, 1, "j0", "j1", Holder("j0", 0));
    var s5 := Exec(cfg, s4, Move(1));
    Begins(cfg, s5, 3, "j0", "j3", Holder("j1", 0));
    var s6 := Exec(cfg, s5, b3);
    Reads(cfg, s6, 3, "j0", "j3", "j1");
    t := Exec(cfg, s6, Move(3));
  }

  lemma Names()
    ensures "j0" != "" && "j1" != "" && "j2" != "" && "j1" != "j0"
  {
    assert "j0"[1] == '0' && "j1"[1] == '1' && "j2"[1] == '2';
  }

  lemma SevenSteps(cfg: Config, s: Sys, a: Action, b: Action, c: Action, d: Action, e: Action, f: Action, g: Action)
    ensures Run(cfg, s, [a, b, c, d, e, f, g]) ==
            Exec(cfg, Exec(cfg, Exec(cfg, Exec(cfg, Exec(cfg, Exec(cfg, Exec(cfg, s, a), b), c), d), e), f), g)
  {
    hide Exec;
    assert [a, b, c, d, e, f, g][..6] == [a, b, c, d, e, f];
    SixSteps(cfg, s, a, b, c, d, e, f);
  }

  /** The revocation, the write of the call that waited for it, and a rotation with that call's token. */
  lemma OpensAgain(cfg: Config, s: Sys)
    requires TokensLive(cfg) && SlotIs(cfg, s, Holder("j1", 0)) && Fresh(s, 4)
    requires 2 in s.pcs && s.pcs[2] == RotateStore("u") && 2 in s.reqs && s.reqs[2] == TokenWith(cfg, "j0", "j2")
    requires 3 in s.pcs && s.pcs[3] == RotateRevoke("u") && 3 in s.reqs && s.reqs[3] == TokenWith(cfg, "j0", "j3")
    ensures SlotIs(cfg, Exec(cfg, s, Move(3)), Nobody)
    ensures HasRotated(Run(cfg, s, [Move(3), Move(2), Begin(4, TokenWith(cfg, "j2", "j4")), Move(4), Move(4)]), 4)
  {
    hide Run, Exec, Move, SlotIs, TokensLive;
    Names();
    var b4 := Begin(4, TokenWith(cfg, "j2", "j4"));
    ThreeSteps(cfg, s, Move(3), Move(2), b4, [Move(4), Move(4)]);
    assert [Move(3), Move(2), b4] + [Move(4), Move(4)] == [Move(3), Move(2), b4, Move(4), Move(4)];
    Writes(cfg, s, 3, "j0", "j3", Holder("j1", 0));
    var s1 := Exec(cfg, s, Move(3));
    Writes(cfg, s1, 2, "j0", "j2", Nobody);
    var s2 := Exec(cfg, s1, Move(2));
    Begins(cfg, s2, 4, "j2", "j4", Holder("j2", 0));
    var s3 := Exec(cfg, s2, b4);
    Reads(cfg, s3, 4, "j2", "j4", "j2");
    var s4 := Exec(cfg, s3, Move(4));
    Writes(cfg, s4, 4, "j2", "j4", Holder("j2", 0));
    RunCons(cfg, s3, Move(4), [Move(4)]);
    RunCons(cfg, s4, Move(4), []);
    RunNothing(cfg, Exec(cfg, s4, Move(4)));
    assert [Move(4)] + [Move(4)] == [Move(4), Move(4)] && [Move(4)] + [] == [Move(4)];
    hide GenerateRefreshToken;
  }

  lemma RunNothing(cfg: Config, s: Sys)
    ensures Run(cfg, s, []) == s
  {
  }

  /**
   From an initial state with one account: a sign-in, two rotations that both read, one of
   which stores; a third call's use of the old token is refused and revokes the slot; then the
   other rotation stores, and a rotation with the token it answered succeeds without a sign-in.
   */
  lemma RevokedSlotOpensAgain(cfg: Config) returns (acts: seq<Action>)
    requires TokensLive(cfg)
    ensures Initial(START)
    ensures var s := Run(cfg, START, acts);
            && Refuses(cfg, s, Move(3), SLOT) && StandsAtStore(s, 2, SLOT)
            && SlotIs(cfg, Exec(cfg, s, Move(3)), Nobody)
            && HasRotated(Run(cfg, s, [Move(3), Move(2), Begin(4, TokenWith(cfg, "j2", "j4")), Move(4), Move(4)]), 4)
  {
    StartIsInitial();
    SignInHolds(cfg);
    hide Run, Exec, Apply, Initial;
    var signIn := AtomicCallIsARun(cfg, START, 0, SIGN_IN);
    var s := Run(cfg, START, signIn);
    var t := StaleFound(cfg, s);
    var more := [Begin(1, TokenWith(cfg, "j0", "j1")), Begin(2, TokenWith(cfg, "j0", "j2")), Move(1), Move(2),
                 Move(1), Begin(3, TokenWith(cfg, "j0", "j3")), Move(3)];
    RunAppend(cfg, START, signIn, more);
    acts := signIn + more;
    OpensAgain(cfg, t);
    RevokingRefuses(cfg, t);
  }

  lemma RevokingRefuses(cfg: Config, t: Sys)
    requires 2 in t.pcs && t.pcs[2] == RotateStore("u") && 2 in t.reqs && t.reqs[2] == TokenWith(cfg, "j0", "j2")
    requires 3 in t.pcs && t.pcs[3] == RotateRevoke("u") && 3 in t.reqs && t.reqs[3] == TokenWith(cfg, "j0", "j3")
    ensures Refuses(cfg, t, Move(3), SLOT) && StandsAtStore(t, 2, SLOT)
  {
    hide GenerateRefreshToken;
  }
}
