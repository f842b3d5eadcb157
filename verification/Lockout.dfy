/**
 The attempt lockout when commands of overlapping calls interleave. A call that has compared
 its code and stands at its DEL clears the counter whatever was counted since; that is the
 only way out: a full counter keeps every verification of its email out until its expiry
 exactly when no call stands there.
 */
module Lockout {
  import opened GoTime
  import opened Model
  import opened Keys
  import opened TimedStore
  import opened Tables
  import opened Service
  import opened Interleaved
  import opened Serial
  import opened Overshoot
  import opened OvershootReached
  import KafkaProducer

  /** The attempts counter of the email is at its maximum and does not expire before the given time. */
  predicate Full(cfg: Config, store: Store, email: string, until: int) {
    var k := Attempts(email);
    && k in store && store[k].value.Counter? && store[k].value.n >= cfg.otpMaxVerifyAttempts
    && (store[k].deadline.Some? ==> until <= store[k].deadline.value)
  }

  /** The call has found its code right and is about to delete the session and both counters. */
  predicate StandsAtConsume(s: Sys, t: CallId, email: string) {
    && t in s.reqs && t in s.pcs && s.reqs[t].VerifyOTP?
    && s.pcs[t].VerifyConsume? && s.pcs[t].meta.email == email
  }

  ghost predicate NobodyConsumes(s: Sys, email: string) {
    forall t :: !StandsAtConsume(s, t, email)
  }

  // ---- one command on a full counter ----

  lemma VerifyKeepsFull(cfg: Config, w: World, req: Request, pc: Pc, email: string, until: int)
    requires req.VerifyOTP? && VerifyPc(pc) && Full(cfg, w.store, email, until) && w.now < until <= w.now + HOUR
    requires !(pc.VerifyConsume? && pc.meta.email == email)
    ensures Full(cfg, StepVerify(cfg, w, req, pc).0.store, email, until)
  {
    hide InsertUser, NewUser;
  }

  lemma OtherKeysKeepFull(cfg: Config, store: Store, store': Store, email: string, until: int)
    requires Full(cfg, store, email, until) && SameEntry(store, store', Attempts(email))
    ensures Full(cfg, store', email, until)
  {
  }

  lemma AttemptsInFootprint(req: Request, pc: Pc, email: string)
    requires Fits(req, pc) && Attempts(email) in Footprint(req, pc)
    ensures req.VerifyOTP? && VerifyPc(pc)
  {
  }

  lemma CommandKeepsFull(cfg: Config, w: World, req: Request, pc: Pc, published: KafkaProducer.Outcome, email: string, until: int)
    requires Fits(req, pc) && !pc.Done? && Full(cfg, w.store, email, until) && w.now < until <= w.now + HOUR
    requires !(req.VerifyOTP? && pc.VerifyConsume? && pc.meta.email == email)
    ensures Full(cfg, StepWith(cfg, w, req, pc, published).0.store, email, until)
  {
    Dispatch(cfg, w, req, pc, published);
    hide StepWith, StepVerify, Fits, Footprint, Full;
    if Attempts(email) in Footprint(req, pc) {
      AttemptsInFootprint(req, pc, email);
      VerifyKeepsFull(cfg, w, req, pc, email, until);
    } else {
      CommandFootprint(cfg, w, req, pc, published, Attempts(email));
      OtherKeysKeepFull(cfg, w.store, StepWith(cfg, w, req, pc, published).0.store, email, until);
    }
  }

  /** A verification that reads a full counter is rejected and changes nothing. */
  lemma FullRejects(cfg: Config, s: Sys, t: CallId, published: KafkaProducer.Outcome, email: string, until: int)
    requires Full(cfg, s.w.store, email, until) && s.w.now < until && Enabled(s, Advance(t, published))
    requires s.pcs[t].VerifyAttempts? && s.pcs[t].data.meta.email == email
    ensures Exec(cfg, s, Advance(t, published)) == s.(pcs := s.pcs[t := Done(OtpRejected)])
  {
    Dispatch(cfg, s.w, s.reqs[t], s.pcs[t], published);
    hide StepWith;
  }

  lemma OnlyComparisonsConsume(cfg: Config, w: World, req: Request, pc: Pc, published: KafkaProducer.Outcome)
    requires Fits(req, pc) && !pc.Done? && !VerifyPc(pc)
    ensures !StepWith(cfg, w, req, pc, published).1.VerifyConsume?
  {
    Dispatch(cfg, w, req, pc, published);
    hide StepWith, Fits, StepSend, StepSignIn;
    if SendPc(pc) { SendStepFits(cfg, w, if pc.SendPublish? then req.(publish := published) else req, pc); }
    else if SignInPc(pc) { SignInStepFits(cfg, w, req, pc); }
  }

  lemma CommandReachesConsume(cfg: Config, w: World, req: Request, pc: Pc, published: KafkaProducer.Outcome, email: string)
    requires Fits(req, pc) && !pc.Done? && StepWith(cfg, w, req, pc, published).1.VerifyConsume?
    requires StepWith(cfg, w, req, pc, published).1.meta.email == email
    ensures pc.VerifyAttempts? && pc.data.meta.email == email
  {
    if !VerifyPc(pc) { OnlyComparisonsConsume(cfg, w, req, pc, published); }
    Dispatch(cfg, w, req, pc, published);
    hide StepWith, Fits;
  }

  /** Nobody gets past a full counter. */
  lemma FullLetsNobodyConsume(cfg: Config, s: Sys, a: Action, email: string, until: int, t: CallId)
    requires Full(cfg, s.w.store, email, until) && s.w.now < until && !StandsAtConsume(s, t, email)
    ensures !StandsAtConsume(Exec(cfg, s, a), t, email)
  {
    if a.Advance? && a.id == t && Enabled(s, a) {
      if s.pcs[t].Done? { DoneStays(cfg, s, t, a.published); }
      else if s.pcs[t].VerifyAttempts? && s.pcs[t].data.meta.email == email { FullRejects(cfg, s, t, a.published, email, until); }
      else if StandsAtConsume(Exec(cfg, s, a), t, email) {
        CommandReachesConsume(cfg, s.w, s.reqs[t], s.pcs[t], a.published, email);
      }
    }
    hide StepWith, Full;
  }

  lemma FullKept(cfg: Config, s: Sys, a: Action, email: string, until: int)
    requires Full(cfg, s.w.store, email, until) && NobodyConsumes(s, email) && s.w.now < until <= s.w.now + HOUR
    ensures Full(cfg, Exec(cfg, s, a).w.store, email, until) && NobodyConsumes(Exec(cfg, s, a), email)
  {
    forall t ensures !StandsAtConsume(Exec(cfg, s, a), t, email) { FullLetsNobodyConsume(cfg, s, a, email, until, t); }
    if Enabled(s, a) && a.Advance? {
      if s.pcs[a.id].Done? { DoneStays(cfg, s, a.id, a.published); }
      else {
        assert !StandsAtConsume(s, a.id, email);
        CommandKeepsFull(cfg, s.w, s.reqs[a.id], s.pcs[a.id], a.published, email, until);
      }
    }
    hide StepWith, Full, Fits;
  }

  /** While nobody stands at the DEL of the email, a full counter stays full until its time. */
  lemma {:induction false} FullStays(cfg: Config, s: Sys, acts: seq<Action>, email: string, until: int)
    requires Full(cfg, s.w.store, email, until) && NobodyConsumes(s, email) && until <= s.w.now + HOUR
    requires Run(cfg, s, acts).w.now < until
    ensures var t := Run(cfg, s, acts);
            Full(cfg, t.w.store, email, until) && NobodyConsumes(t, email) && s.w.now <= t.w.now
  {
    hide Exec, Full, NobodyConsumes;
    if acts != [] {
      var front := Run(cfg, s, acts[..|acts| - 1]);
      TimeGoesOn(cfg, front, acts[|acts| - 1]);
      FullStays(cfg, s, acts[..|acts| - 1], email, until);
      FullKept(cfg, front, acts[|acts| - 1], email, until);
    }
  }

  /**
   Lockout, in every interleaving. When a wrong code has brought the attempts of an email to
   their maximum and nobody stands at the DEL for that email, then for an hour from its EXPIRE
   every verification for the email that reads the counter is rejected and changes nothing,
   whatever code it brings, however fresh its session is, and whatever else happens.
   */
  lemma LockedOutForAnHour(cfg: Config, s: Sys, wrong: CallId, published: KafkaProducer.Outcome, email: string,
                           acts: seq<Action>, t: CallId, a: Action)
    requires Enabled(s, Advance(wrong, published)) && s.pcs[wrong].VerifyExpire? && s.pcs[wrong].meta.email == email
    requires Live(s.w.store, Attempts(email), s.w.now) && NobodyConsumes(s, email)
    requires s.w.store[Attempts(email)].value.Counter?
    requires CountAt(s.w.store, Attempts(email), s.w.now) >= cfg.otpMaxVerifyAttempts
    requires var s' := Run(cfg, Exec(cfg, s, Advance(wrong, published)), acts);
             && s'.w.now < s.w.now + HOUR
             && a.Advance? && a.id == t && Enabled(s', a) && s'.pcs[t].VerifyAttempts? && s'.pcs[t].data.meta.email == email
    ensures var s' := Run(cfg, Exec(cfg, s, Advance(wrong, published)), acts);
            Exec(cfg, s', a) == s'.(pcs := s'.pcs[t := Done(OtpRejected)])
  {
    var s1 := Exec(cfg, s, Advance(wrong, published));
    ExpireFills(cfg, s, wrong, published, email);
    hide Exec, Full, NobodyConsumes, Run, Fits;
    FullStays(cfg, s1, acts, email, s.w.now + HOUR);
    FullRejects(cfg, Run(cfg, s1, acts), t, a.published, email, s.w.now + HOUR);
  }

  lemma ExpireFills(cfg: Config, s: Sys, t: CallId, published: KafkaProducer.Outcome, email: string)
    requires Enabled(s, Advance(t, published)) && s.pcs[t].VerifyExpire? && s.pcs[t].meta.email == email
    requires Live(s.w.store, Attempts(email), s.w.now) && NobodyConsumes(s, email)
    requires s.w.store[Attempts(email)].value.Counter?
    requires CountAt(s.w.store, Attempts(email), s.w.now) >= cfg.otpMaxVerifyAttempts
    ensures var s' := Exec(cfg, s, Advance(t, published));
            && s'.w.now == s.w.now && NobodyConsumes(s', email)
            && Full(cfg, s'.w.store, email, s.w.now + HOUR)
  {
    Dispatch(cfg, s.w, s.reqs[t], s.pcs[t], published);
    hide StepWith;
    var s' := Exec(cfg, s, Advance(t, published));
    forall u ensures !StandsAtConsume(s', u, email) { assert !StandsAtConsume(s, u, email); }
  }

  lemma ConsumeClears(cfg: Config, s: Sys, t: CallId, published: KafkaProducer.Outcome, email: string)
    requires StandsAtConsume(s, t, email)
    ensures var s' := Exec(cfg, s, Advance(t, published));
            Attempts(email) !in s'.w.store && s'.w.now == s.w.now
  {
    assert Fits(s.reqs[t], s.pcs[t]);
    Dispatch(cfg, s.w, s.reqs[t], s.pcs[t], published);
    hide StepWith, Fits;
  }

  /** In every state with a full counter: it stays full in every continuation up to its time exactly when nobody stands at the DEL. */
  lemma LockHoldsExactly(cfg: Config, s: Sys, email: string, until: int)
    requires Full(cfg, s.w.store, email, until) && s.w.now < until <= s.w.now + HOUR
    ensures (forall acts | Run(cfg, s, acts).w.now < until :: Full(cfg, Run(cfg, s, acts).w.store, email, until))
            <==> NobodyConsumes(s, email)
  {
    if NobodyConsumes(s, email) {
      forall acts | Run(cfg, s, acts).w.now < until ensures Full(cfg, Run(cfg, s, acts).w.store, email, until) {
        FullStays(cfg, s, acts, email, until);
      }
    } else {
      var t :| StandsAtConsume(s, t, email);
      var a := Advance(t, KafkaProducer.Delivered);
      ConsumeClears(cfg, s, t, KafkaProducer.Delivered, email);
      RunCons(cfg, s, a, []);
      assert [a] + [] == [a] && Run(cfg, s, [a]) == Exec(cfg, s, a);
      hide Exec;
      assert !Full(cfg, Run(cfg, s, [a]).w.store, email, until);
    }
  }

  // ---- the way out is real ----

  const RIGHT := VerifyOTP("0", "x", "n")

  function Go(): Action { Advance(1, KafkaProducer.Delivered) }

  /** Call 1 brings the right code while the counter is not full. */
  lemma RightCodePasses(cfg: Config, s: Sys)
    requires StoreShape(cfg, s.w, Attempts(EMAIL), 0) && 1 !in s.reqs && 1 !in s.pcs && cfg.otpMaxVerifyAttempts >= 1
    ensures var t := Exec(cfg, Exec(cfg, Exec(cfg, s, Begin(1, RIGHT)), Go()), Go());
            t == s.(reqs := s.reqs[1 := RIGHT], pcs := s.pcs[1 := VerifyConsume(META)])
  {
    var s1 := Exec(cfg, s, Begin(1, RIGHT));
    assert s1 == s.(reqs := s.reqs[1 := RIGHT], pcs := s.pcs[1 := VerifySession]);
    Dispatch(cfg, s.w, RIGHT, VerifySession, KafkaProducer.Delivered);
    Dispatch(cfg, s.w, RIGHT, VerifyAttempts(DataFor(cfg)), KafkaProducer.Delivered);
    hide StepWith, hmacFor;
    var s2 := Exec(cfg, s1, Go());
    assert s2 == s.(reqs := s.reqs[1 := RIGHT], pcs := s.pcs[1 := VerifyAttempts(DataFor(cfg))]);
  }

  /** A signup, and a verification with its code that stands at its DEL, at the foot of a ladder of wrong codes. */
  lemma RightCodeStands(cfg: Config) returns (acts: seq<Action>)
    requires cfg.otpRateMaxPerHour >= 1 && cfg.otpMaxVerifyAttempts >= 1
    ensures var base := Run(cfg, START, acts);
            var k := Attempts(EMAIL);
            && Reaches(cfg, START, acts, 1, base, 2, k, 0, Ladder(base, 2, k, 0, 0), 0)
            && 1 in base.pcs && base.pcs[1] == VerifyConsume(META) && 1 in base.reqs && base.reqs[1] == RIGHT
  {
    var k := Attempts(EMAIL);
    var front := AttemptsFoot(cfg, 1);
    var s := Run(cfg, START, front);
    var more := [Begin(1, RIGHT), Go(), Go()];
    acts := front + more;
    FootFacts(cfg, front, s);
    hide Exec, hmacFor, AtMostOverlapping, StoreShape, Reaches;
    RightCodePasses(cfg, s);
    OneCallAlone(cfg, START, front, more, 1, k, 1);
    RunAppend(cfg, START, front, more);
    ThreeSteps(cfg, s, Begin(1, RIGHT), Go(), Go(), []);
    assert more + [] == more;
    hide Run;
    StandsBeside(cfg, acts, s, Run(cfg, START, acts));
  }

  lemma FootFacts(cfg: Config, front: seq<Action>, s: Sys)
    requires s == Run(cfg, START, front)
    requires Reaches(cfg, START, front, 1, s, 1, Attempts(EMAIL), 0, Ladder(s, 1, Attempts(EMAIL), 0, 0), 0)
    ensures StoreShape(cfg, s.w, Attempts(EMAIL), 0) && 1 !in s.reqs && 1 !in s.pcs && s.pcs.Keys == s.reqs.Keys
    ensures Overlapping(s, Attempts(EMAIL)) == {} && AtMostOverlapping(cfg, START, front, Attempts(EMAIL), 1)
    ensures forall t | t in s.pcs :: t < 1 && !UsesCounter(s.reqs[t], s.pcs[t], Attempts(EMAIL))
  {
    hide Run, StoreShape, AtMostOverlapping;
  }

  lemma StandsBeside(cfg: Config, acts: seq<Action>, s: Sys, t: Sys)
    requires t == Run(cfg, START, acts) && AtMostOverlapping(cfg, START, acts, Attempts(EMAIL), 1)
    requires t == s.(reqs := s.reqs[1 := RIGHT], pcs := s.pcs[1 := VerifyConsume(META)])
    requires StoreShape(cfg, s.w, Attempts(EMAIL), 0) && s.pcs.Keys == s.reqs.Keys
    requires forall u | u in s.pcs :: u < 1 && !UsesCounter(s.reqs[u], s.pcs[u], Attempts(EMAIL))
    ensures Reaches(cfg, START, acts, 1, t, 2, Attempts(EMAIL), 0, Ladder(t, 2, Attempts(EMAIL), 0, 0), 0)
  {
    hide Run, StoreShape, AtMostOverlapping;
    var k := Attempts(EMAIL);
    assert Requests(t, 2, k, 0) == t.reqs && Ladder(t, 2, k, 0, 0) == t.pcs;
  }

  lemma TopOfLadder(cfg: Config, acts: seq<Action>, base: Sys, m: nat)
    requires Reaches(cfg, START, acts, 1, base, 2, Attempts(EMAIL), m, Ladder(base, 2, Attempts(EMAIL), m, m), m)
    requires 1 in base.pcs && base.pcs[1] == VerifyConsume(META) && 1 in base.reqs && base.reqs[1] == RIGHT
    ensures var s := Run(cfg, START, acts);
            && s.w.now == 0 && CountAt(s.w.store, Attempts(EMAIL), 0) == m && StandsAtConsume(s, 1, EMAIL)
            && s.reqs[1] == RIGHT && s.pcs[1] == VerifyConsume(META)
  {
    hide Run, AtMostOverlapping, UsesCounter;
  }

  /**
   For every maximum of at least one: the maximum of wrong codes is counted for an email, all
   without any time passing, and right after that a verification for it deletes the session
   and both counters. Its code had been compared before the first wrong one was counted.
   */
  lemma LockoutEscaped(cfg: Config) returns (acts: seq<Action>)
    requires cfg.otpRateMaxPerHour >= 1 && cfg.otpMaxVerifyAttempts >= 1
    ensures Initial(START)
    ensures var s := Run(cfg, START, acts);
            var t := Exec(cfg, s, Go());
            && s.w.now == t.w.now == 0
            && CountAt(s.w.store, Attempts(EMAIL), 0) == cfg.otpMaxVerifyAttempts
            && StandsAtConsume(s, 1, EMAIL)
            && Attempts(EMAIL) !in t.w.store && 1 in t.pcs && t.pcs[1] == VerifyCreate(META)
  {
    hide Run, Reaches, Ladder, StandsAtConsume;
    var k, m := Attempts(EMAIL), cfg.otpMaxVerifyAttempts;
    var front := RightCodeStands(cfg);
    var base := Run(cfg, START, front);
    acts := Climb(cfg, START, front, 1, base, 2, k);
    TopOfLadder(cfg, acts, base, m);
    ConsumeClears(cfg, Run(cfg, START, acts), 1, KafkaProducer.Delivered, EMAIL);
    ConsumeGoesOn(cfg, Run(cfg, START, acts));
    RateFoot(cfg, 1);
  }

  lemma ConsumeGoesOn(cfg: Config, s: Sys)
    requires 1 in s.pcs && 1 in s.reqs && s.reqs[1] == RIGHT && s.pcs[1] == VerifyConsume(META)
    ensures 1 in Exec(cfg, s, Go()).pcs && Exec(cfg, s, Go()).pcs[1] == VerifyCreate(META)
  {
  }
}
