/**
 Runs of atomic calls. They are interleaved runs in which calls are one at a time, so
 rotations are atomic on every slot, no time passes inside a call and no two calls use a
 counter at once; what Sessions, SingleUse and OtpLimits state about commands is here stated
 about requests, answers and stored codes.
 */
module AtomicCorollaries {
  import opened Wrappers
  import opened GoTime
  import opened Model
  import opened Keys
  import opened TimedStore
  import opened Service
  import opened Interleaved
  import opened Sessions
  import opened SingleUse
  import opened Serial
  import Atomic
  import O = Overshoot
  import OtpLimits
  import R = AtomicRuns
  import RateWindow

  lemma {:induction false} OneAtPrefix(cfg: Config, s0: Sys, acts: seq<Action>, n: nat)
    requires n <= |acts| && OneAtATime(cfg, s0, acts)
    ensures OneAtATime(cfg, s0, acts[..n])
  {
    hide Run, Open;
    if n < |acts| {
      OneAtPrefix(cfg, s0, acts[..|acts| - 1], n);
      assert acts[..|acts| - 1][..n] == acts[..n];
    } else {
      assert acts[..n] == acts;
    }
  }

  lemma OneAtATimeWaits(cfg: Config, s: Sys, a: Action, sl: Slot)
    requires forall t, u | Open(s, t) && Open(s, u) :: t == u
    ensures WaitsFor(cfg, s, a, sl)
  {
    if Touches(cfg, s, a, sl) {
      forall t | StandsAtStore(s, t, sl) ensures t == a.id { assert Open(s, t) && Open(s, a.id); }
    }
    hide Fits, VerifyRefreshToken;
  }

  /** Calls one at a time are atomic on every slot. */
  lemma OneAtATimeIsPerSlot(cfg: Config, s0: Sys, acts: seq<Action>, sl: Slot)
    requires OneAtATime(cfg, s0, acts)
    ensures PerSlot(cfg, s0, acts, sl)
  {
    hide Run, StateAt, Open, WaitsFor;
    forall n | 0 <= n < |acts| ensures WaitsFor(cfg, StateAt(cfg, s0, acts, n), acts[n], sl) {
      OneAtPrefix(cfg, s0, acts, n);
      StateAtIsRun(cfg, s0, acts, n);
      OneAtATimeWaits(cfg, StateAt(cfg, s0, acts, n), acts[n], sl);
    }
  }

  /** A verified rotation answers Rotated exactly when its JTI is the slot's current one in the interleaved run. */
  lemma RotatesExactly(cfg: Config, s0: Sys, evs: seq<R.Event>, i: nat, sl: Slot) returns (acts: seq<Action>)
    requires Initial(s0) && SidsFresh(evs) && i < |evs| && evs[i].Call?
    requires Addresses(cfg, R.At(cfg, s0.w, evs, i).now, evs[i].req) == Some(sl)
    ensures Matches(cfg, s0.w, evs, i, Run(cfg, s0, acts)) && OneAtATime(cfg, s0, acts)
    ensures var w := R.At(cfg, s0.w, evs, i);
            var jti := VerifyRefreshToken(evs[i].req.token, cfg, w.now).value.jti;
            Apply(cfg, w, evs[i].req).1.Rotated? <==> jti != "" && IsCurrent(cfg, s0, acts, sl, |acts|, jti)
  {
    hide Run, StateAt, R.At, Apply, IsCurrent, OneAtATime, SidsFresh, VerifyRefreshToken, AnsweredAs;
    acts := AtomicRunIsInterleaved(cfg, s0, evs, i);
    StateAtIsRun(cfg, s0, acts, |acts|);
    assert acts[..|acts|] == acts;
    InitiallyEmpty(s0, sl);
    var w := R.At(cfg, s0.w, evs, i);
    HoldsExactlyTheCurrent(cfg, s0, acts, sl, |acts|, VerifyRefreshToken(evs[i].req.token, cfg, w.now).value.jti);
    Atomic.RotateEffect(cfg, w, evs[i].req);
  }

  /** UUIDs are never repeated. */
  predicate EventJtisDistinct(evs: seq<R.Event>) {
    forall i, j | 0 <= i < j < |evs| && evs[i].Call? && evs[j].Call? && NamesJti(evs[i].req) && NamesJti(evs[j].req) ::
      evs[i].req.jti != evs[j].req.jti
  }

  lemma CallsHaveDistinctJtis(cfg: Config, w0: World, evs: seq<R.Event>, n: nat, s: Sys)
    requires n <= |evs| && EventJtisDistinct(evs) && Matches(cfg, w0, evs, n, s)
    ensures JtisDistinct(s.reqs)
  {
    hide R.At, AnsweredAs;
  }

  lemma CallIsEvent(cfg: Config, w0: World, evs: seq<R.Event>, n: nat, s: Sys, t: nat)
    requires t < n <= |evs| && evs[t].Call? && Matches(cfg, w0, evs, n, s)
    ensures t in s.pcs && t in s.reqs && s.reqs[t] == evs[t].req
    ensures s.pcs[t] == Done(Apply(cfg, R.At(cfg, w0, evs, t), evs[t].req).1)
  {
    assert AnsweredAs(cfg, w0, evs, t, s);
    hide R.At, Apply;
  }

  /** Each JTI rotates at most once, on any slots. */
  lemma JtiRotatesOnce(cfg: Config, s0: Sys, evs: seq<R.Event>, i: nat, k: nat, jti: string)
    requires Initial(s0) && SidsFresh(evs) && EventJtisDistinct(evs)
    requires i < k < |evs| && evs[i].Call? && evs[i].req.Rotate? && evs[k].Call? && evs[k].req.Rotate?
    requires evs[i].req.token.Signed? && evs[i].req.token.claims.jti == jti
    requires evs[k].req.token.Signed? && evs[k].req.token.claims.jti == jti
    ensures !(Apply(cfg, R.At(cfg, s0.w, evs, i), evs[i].req).1.Rotated? &&
              Apply(cfg, R.At(cfg, s0.w, evs, k), evs[k].req).1.Rotated?)
  {
    hide Run, R.At, Apply, OneAtATime, SidsFresh, EventJtisDistinct, JtisDistinct, PerSlot, ReadsApart, Matches, Initial;
    var acts := AtomicRunIsInterleaved(cfg, s0, evs, |evs|);
    var s := Run(cfg, s0, acts);
    CallsHaveDistinctJtis(cfg, s0.w, evs, |evs|, s);
    CallIsEvent(cfg, s0.w, evs, |evs|, s, i);
    CallIsEvent(cfg, s0.w, evs, |evs|, s, k);
    forall sl: Slot ensures ReadsApart(cfg, s0, acts, sl) {
      OneAtATimeIsPerSlot(cfg, s0, acts, sl);
      PerSlotReadsApart(cfg, s0, acts, sl);
    }
    SingleUse.JtiRotatesOnce(cfg, s0, acts, i, k, jti);
  }

  // ---- reuse ----

  /** The call is past choosing to sign in on the slot. */
  predicate WillSignIn(req: Request, pc: Pc, sl: Slot) {
    && (req.Login? || req.Google?) && req.device == sl.device
    && (((pc.SignInRefresh? || pc.SignInCache?) && pc.user.id == sl.user) ||
        (pc.Done? && pc.response.SignedIn? && pc.response.profile.id == sl.user))
  }

  lemma SignInKept(cfg: Config, s: Sys, a: Action, t: CallId, sl: Slot)
    requires t in s.reqs && t in s.pcs && WillSignIn(s.reqs[t], s.pcs[t], sl)
    ensures var s' := Exec(cfg, s, a);
            t in s'.reqs && t in s'.pcs && s'.reqs[t] == s.reqs[t] && WillSignIn(s'.reqs[t], s'.pcs[t], sl)
  {
    if a.Advance? && a.id == t && Enabled(s, a) {
      if s.pcs[t].Done? { DoneStays(cfg, s, t, a.published); }
      else { Dispatch(cfg, s.w, s.reqs[t], s.pcs[t], a.published); }
    }
    hide StepWith;
  }

  lemma {:induction false} SignInStays(cfg: Config, s: Sys, acts: seq<Action>, t: CallId, sl: Slot)
    requires t in s.reqs && t in s.pcs && WillSignIn(s.reqs[t], s.pcs[t], sl)
    ensures var s' := Run(cfg, s, acts);
            t in s'.reqs && t in s'.pcs && s'.reqs[t] == s.reqs[t] && WillSignIn(s'.reqs[t], s'.pcs[t], sl)
  {
    hide Exec, WillSignIn;
    if acts != [] {
      SignInStays(cfg, s, acts[..|acts| - 1], t, sl);
      SignInKept(cfg, Run(cfg, s, acts[..|acts| - 1]), acts[|acts| - 1], t, sl);
    }
  }

  /** The event is a sign-in answered with a session on the slot. */
  ghost predicate SignedInOn(cfg: Config, w: World, e: R.Event, sl: Slot) {
    && e.Call? && (e.req.Login? || e.req.Google?) && e.req.device == sl.device
    && Apply(cfg, w, e.req).1.SignedIn? && Apply(cfg, w, e.req).1.profile.id == sl.user
  }

  ghost predicate NoSignInBetween(cfg: Config, w0: World, evs: seq<R.Event>, i: nat, k: nat, sl: Slot)
    requires k <= |evs|
  {
    forall m | i < m < k :: !SignedInOn(cfg, R.At(cfg, w0, evs, m), evs[m], sl)
  }

  /** Without a sign-in on the slot the actions of one event settle nothing else there. */
  lemma BlockKeepsSettled(cfg: Config, s0: Sys, evs: seq<R.Event>, n: nat, front: seq<Action>, more: seq<Action>, sl: Slot)
    requires n < |evs| && OnlyOf(more, n) && Settled(Run(cfg, s0, front), sl)
    requires Matches(cfg, s0.w, evs, n, Run(cfg, s0, front))
    requires Matches(cfg, s0.w, evs, n + 1, Run(cfg, s0, front + more))
    requires !SignedInOn(cfg, R.At(cfg, s0.w, evs, n), evs[n], sl)
    ensures Settled(Run(cfg, s0, front + more), sl)
  {
    var s := Run(cfg, s0, front);
    hide Exec, R.At, Settled, SignsIn, Run, Matches, SignedInOn;
    RunAppend(cfg, s0, front, more);
    forall m: nat | m < |more| ensures !SignsIn(StateAt(cfg, s, more, m), more[m], sl) {
      if SignsIn(StateAt(cfg, s, more, m), more[m], sl) {
        SignInIsAnswered(cfg, s0, evs, n, front, more, m, sl);
      }
    }
    StateAtIsRun(cfg, s, more, |more|);
    assert more[..|more|] == more && StateAt(cfg, s, more, 0) == s;
    SettledUntilSignIn(cfg, s, more, sl, 0, |more|);
  }

  lemma SignInIsAnswered(cfg: Config, s0: Sys, evs: seq<R.Event>, n: nat, front: seq<Action>, more: seq<Action>, m: nat,
                         sl: Slot)
    requires n < |evs| && OnlyOf(more, n) && m < |more| && Matches(cfg, s0.w, evs, n + 1, Run(cfg, s0, front + more))
    requires SignsIn(StateAt(cfg, Run(cfg, s0, front), more, m), more[m], sl)
    ensures SignedInOn(cfg, R.At(cfg, s0.w, evs, n), evs[n], sl)
  {
    hide R.At, Run, Apply, StateAt, Matches, SignsIn, WillSignIn, OnlyOf;
    SignInGoesOn(cfg, Run(cfg, s0, front), more, m, n, sl);
    RunAppend(cfg, s0, front, more);
    EventIsCall(cfg, s0.w, evs, n, Run(cfg, s0, front + more));
    CallIsEvent(cfg, s0.w, evs, n + 1, Run(cfg, s0, front + more), n);
    DoneSignInIsAnswered(evs[n].req, Apply(cfg, R.At(cfg, s0.w, evs, n), evs[n].req).1, sl);
  }

  lemma DoneSignInIsAnswered(req: Request, r: Response, sl: Slot)
    requires WillSignIn(req, Done(r), sl)
    ensures (req.Login? || req.Google?) && req.device == sl.device && r.SignedIn? && r.profile.id == sl.user
  {
  }

  lemma SignsInWill(s: Sys, a: Action, sl: Slot)
    requires SignsIn(s, a, sl)
    ensures a.Advance? && a.id in s.reqs && a.id in s.pcs && WillSignIn(s.reqs[a.id], s.pcs[a.id], sl)
  {
    hide Fits;
  }

  lemma SignInGoesOn(cfg: Config, s: Sys, more: seq<Action>, m: nat, n: CallId, sl: Slot)
    requires OnlyOf(more, n) && m < |more| && SignsIn(StateAt(cfg, s, more, m), more[m], sl)
    ensures var t := Run(cfg, s, more); n in t.reqs && n in t.pcs && WillSignIn(t.reqs[n], t.pcs[n], sl)
  {
    hide Run, StateAt, SignsIn, WillSignIn;
    assert more[m] in more;
    SignsInWill(StateAt(cfg, s, more, m), more[m], sl);
    StateAtIsRun(cfg, s, more, m);
    RunAppend(cfg, s, more[..m], more[m..]);
    assert more[..m] + more[m..] == more;
    SignInStays(cfg, StateAt(cfg, s, more, m), more[m..], n, sl);
  }

  lemma EventIsCall(cfg: Config, w0: World, evs: seq<R.Event>, n: nat, s: Sys)
    requires n < |evs| && Matches(cfg, w0, evs, n + 1, s) && n in s.reqs
    ensures evs[n].Call?
  {
    hide R.At, AnsweredAs;
  }

  lemma {:induction false} SettledThroughEvents(cfg: Config, s0: Sys, evs: seq<R.Event>, i: nat, k: nat,
                                                front: seq<Action>, sl: Slot)
    requires i < k <= |evs| && SidsFresh(evs) && NoSignInBetween(cfg, s0.w, evs, i, k, sl)
    requires Matches(cfg, s0.w, evs, i + 1, Run(cfg, s0, front)) && Settled(Run(cfg, s0, front), sl)
    ensures Dead(R.At(cfg, s0.w, evs, k), sl)
    decreases k - i
  {
    hide Run, SignedInOn, R.At, Dead, SidsFresh, AnsweredAs;
    if i + 1 < k {
      var more := OneBlock(cfg, s0, evs, i + 1, front);
      BlockKeepsSettled(cfg, s0, evs, i + 1, front, more, sl);
      SettledThroughEvents(cfg, s0, evs, i + 1, k, front + more, sl);
    }
  }

  /** A refused rotation leaves its slot dead, and between atomic calls nobody stands at a store. */
  lemma RefusalSettlesEvent(cfg: Config, w0: World, evs: seq<R.Event>, i: nat, s: Sys, sl: Slot)
    requires i < |evs| && evs[i].Call? && Matches(cfg, w0, evs, i + 1, s)
    requires Addresses(cfg, R.At(cfg, w0, evs, i).now, evs[i].req) == Some(sl)
    requires !Apply(cfg, R.At(cfg, w0, evs, i), evs[i].req).1.Rotated?
    ensures Settled(s, sl)
  {
    hide R.At, Apply, VerifyRefreshToken, AnsweredAs;
    MatchesNoneOpen(cfg, w0, evs, i + 1, s);
    AtAfterCall(cfg, w0, evs, i);
    Atomic.RotateEffect(cfg, R.At(cfg, w0, evs, i), evs[i].req);
    forall t ensures !StandsAtStore(s, t, sl) { assert !Open(s, t); }
  }

  lemma DeadSlotRefuses(cfg: Config, w: World, req: Request, sl: Slot)
    requires Dead(w, sl) && Addresses(cfg, w.now, req) == Some(sl)
    ensures Apply(cfg, w, req).1 == SessionExpired
  {
    Atomic.RotateEffect(cfg, w, req);
    hide Apply, VerifyRefreshToken;
  }

  /**
   Reuse detection: once a verified token is refused on a slot, stale or not, every later
   rotation on that slot answers SessionExpired, until someone signs in there.
   */
  lemma ReuseRevokesTheSlot(cfg: Config, s0: Sys, evs: seq<R.Event>, i: nat, k: nat, sl: Slot)
    requires Initial(s0) && SidsFresh(evs) && i < k < |evs| && evs[i].Call? && evs[k].Call?
    requires Addresses(cfg, R.At(cfg, s0.w, evs, i).now, evs[i].req) == Some(sl)
    requires !Apply(cfg, R.At(cfg, s0.w, evs, i), evs[i].req).1.Rotated?
    requires NoSignInBetween(cfg, s0.w, evs, i, k, sl)
    requires Addresses(cfg, R.At(cfg, s0.w, evs, k).now, evs[k].req) == Some(sl)
    ensures Apply(cfg, R.At(cfg, s0.w, evs, k), evs[k].req).1 == SessionExpired
  {
    hide Run, R.At, Apply, Dead, SidsFresh, Matches, NoSignInBetween, Initial, OneAtATime, Settled, Addresses;
    var front := AtomicRunIsInterleaved(cfg, s0, evs, i + 1);
    RefusalSettlesEvent(cfg, s0.w, evs, i, Run(cfg, s0, front), sl);
    SettledThroughEvents(cfg, s0, evs, i, k, front, sl);
    DeadSlotRefuses(cfg, R.At(cfg, s0.w, evs, k), evs[k].req, sl);
  }

  // ---- the OTP counters ----

  lemma {:induction false} TicksBetween(cfg: Config, s0: Sys, acts: seq<Action>, n: nat)
    requires OneAtATime(cfg, s0, acts) && n < |acts| && acts[n].Tick?
    ensures NoneOpen(Run(cfg, s0, acts[..n]))
  {
    OneAtPrefix(cfg, s0, acts, n + 1);
    assert acts[..n + 1][..n] == acts[..n];
    hide Run, NoneOpen, Open;
  }

  lemma NobodyAwaits(s: Sys, k: Key)
    requires NoneOpen(s)
    ensures !OtpLimits.AwaitsExpire(s, k)
  {
    if OtpLimits.AwaitsExpire(s, k) {
      var t :| t in s.pcs && t in s.reqs && O.WillExpire(s.reqs[t], s.pcs[t], k);
      assert Open(s, t);
    }
  }

  lemma OneAtATimeIsPrompt(cfg: Config, s0: Sys, acts: seq<Action>, k: Key)
    requires OneAtATime(cfg, s0, acts)
    ensures OtpLimits.Prompt(cfg, s0, acts, k)
  {
    hide Run, StateAt, NoneOpen, OtpLimits.AwaitsExpire, OneAtATime;
    forall n | 0 <= n < |acts| ensures OtpLimits.PromptAt(StateAt(cfg, s0, acts, n), acts[n], k) {
      StateAtIsRun(cfg, s0, acts, n);
      if acts[n].Tick? {
        TicksBetween(cfg, s0, acts, n);
        NobodyAwaits(StateAt(cfg, s0, acts, n), k);
      }
    }
  }

  lemma AtMostOneUses(s: Sys, k: Key)
    requires forall t, u | Open(s, t) && Open(s, u) :: t == u
    ensures |O.Overlapping(s, k)| <= 1
  {
    var users := O.Overlapping(s, k);
    if users != {} {
      var t :| t in users;
      forall u | u in users ensures u == t { assert Open(s, t) && Open(s, u); }
      assert users == {t};
    }
  }

  lemma {:induction false} OneAtATimeDoesNotOverlap(cfg: Config, s0: Sys, acts: seq<Action>, k: Key)
    requires OneAtATime(cfg, s0, acts)
    ensures O.AtMostOverlapping(cfg, s0, acts, k, 1)
  {
    AtMostOneUses(Run(cfg, s0, acts), k);
    hide Run, O.Overlapping, Open, NoneOpen;
    if acts != [] { OneAtATimeDoesNotOverlap(cfg, s0, acts[..|acts| - 1], k); }
  }

  /** One call at a time, with time passing only in between, meets every hypothesis of the interleaved results. */
  lemma OneAtATimeIsEnough(cfg: Config, s0: Sys, acts: seq<Action>, k: Key, sl: Slot)
    requires Initial(s0) && IsCounterKey(k) && OneAtATime(cfg, s0, acts)
    ensures OtpLimits.NeverLoses(cfg, s0, acts, k, |acts|) && OtpLimits.NeverOutlives(cfg, s0, acts, k, |acts|)
    ensures O.AtMostOverlapping(cfg, s0, acts, k, 1) && PerSlot(cfg, s0, acts, sl) && ReadsApart(cfg, s0, acts, sl)
  {
    hide Initial, OneAtATime, OtpLimits.Prompt, OtpLimits.NeverLoses, OtpLimits.NeverOutlives, O.AtMostOverlapping, PerSlot,
         ReadsApart;
    OtpLimits.NothingYet(s0, k);
    OneAtATimeIsPrompt(cfg, s0, acts, k);
    OtpLimits.PromptIsExact(cfg, s0, acts, k);
    OneAtATimeDoesNotOverlap(cfg, s0, acts, k);
    OneAtATimeIsPerSlot(cfg, s0, acts, sl);
    PerSlotReadsApart(cfg, s0, acts, sl);
  }

  // ---- stored codes and wrong codes ----

  /** Event i stored a code for the email of a rate key, or brought a wrong one to a session of the email of an attempts key. */
  ghost predicate CountedAt(cfg: Config, w0: World, evs: seq<R.Event>, k: Key, i: nat)
    requires IsCounterKey(k) && i < |evs|
  {
    var w := R.At(cfg, w0, evs, i);
    if k.Rate? then RateWindow.StoredCode(cfg, w0, evs, i, k.email)
    else evs[i].Call? && Atomic.Miscounts(cfg, w, evs[i].req) &&
         Atomic.SessionOf(w, evs[i].req.otpSid).value.meta.email == k.email
  }

  /** Event i is a verification with the right code of an unlocked session of the email. */
  ghost predicate VerifiedAt(cfg: Config, w0: World, evs: seq<R.Event>, k: Key, i: nat)
    requires IsCounterKey(k) && i < |evs|
  {
    var w := R.At(cfg, w0, evs, i);
    evs[i].Call? && Atomic.Consumes(cfg, w, evs[i].req) &&
    Atomic.SessionOf(w, evs[i].req.otpSid).value.meta.email == k.email
  }

  lemma SendOnCounter(cfg: Config, w: World, req: Request, k: Key)
    requires req.SendOTP? && IsCounterKey(k) && OtpLimits.Positive(w.store, k)
    ensures var store := Apply(cfg, w, req).0.store;
            if k == Rate(req.email) && Atomic.Generates(cfg, w, req) then
              && CountAt(w.store, k, w.now) < cfg.otpRateMaxPerHour
              && k in store && store[k] == Entry(Counter(CountAt(w.store, k, w.now) + 1), Some(w.now + HOUR))
            else SameEntry(w.store, store, k)
  {
    hide Apply, Atomic.Refusal;
    Atomic.SendEffect(cfg, w, req);
    var s := Atomic.GeneratedStore(cfg, w, req);
    if k != Rate(req.email) {
      assert SameEntry(w.store, s, k) && SameEntry(w.store, Atomic.RemovedStore(s, req), k);
    }
  }

  lemma VerifyOnCounter(cfg: Config, w: World, req: Request, k: Key)
    requires req.VerifyOTP? && IsCounterKey(k) && OtpLimits.Positive(w.store, k)
    ensures var store := Apply(cfg, w, req).0.store;
            if Atomic.Consumes(cfg, w, req) && Atomic.SessionOf(w, req.otpSid).value.meta.email == k.email then k !in store
            else if k.Attempts? && Atomic.Miscounts(cfg, w, req) && Atomic.SessionOf(w, req.otpSid).value.meta.email == k.email then
              && CountAt(w.store, k, w.now) < cfg.otpMaxVerifyAttempts
              && k in store && store[k] == Entry(Counter(CountAt(w.store, k, w.now) + 1), Some(w.now + HOUR))
            else SameEntry(w.store, store, k)
  {
    hide Apply;
    Atomic.VerifyEffect(cfg, w, req);
  }

  lemma OtherOnCounter(cfg: Config, w: World, req: Request, k: Key)
    requires !req.SendOTP? && !req.VerifyOTP? && IsCounterKey(k)
    ensures SameEntry(w.store, Apply(cfg, w, req).0.store, k)
  {
    hide Apply, VerifyRefreshToken, GenerateAccessToken, GenerateRefreshToken;
    if req.Rotate? { Atomic.RotateEffect(cfg, w, req); }
    else if req.GetUser? { Atomic.GetUserEffect(cfg, w, req); }
    else { Atomic.SignInEffect(cfg, w, req); }
  }

  /** What event i leaves of a counter. */
  ghost predicate EventMoves(cfg: Config, w0: World, evs: seq<R.Event>, k: Key, i: nat)
    requires IsCounterKey(k) && i < |evs|
  {
    var w, store := R.At(cfg, w0, evs, i), R.At(cfg, w0, evs, i + 1).store;
    if CountedAt(cfg, w0, evs, k, i) then
      && CountAt(w.store, k, w.now) < O.Maximum(cfg, k)
      && k in store && store[k] == Entry(Counter(CountAt(w.store, k, w.now) + 1), Some(w.now + HOUR))
    else if VerifiedAt(cfg, w0, evs, k, i) then k !in store
    else SameEntry(w.store, store, k)
  }

  lemma EventOnCounter(cfg: Config, w0: World, evs: seq<R.Event>, k: Key, i: nat)
    requires i < |evs| && IsCounterKey(k) && OtpLimits.Positive(R.At(cfg, w0, evs, i).store, k)
    ensures EventMoves(cfg, w0, evs, k, i)
    ensures R.At(cfg, w0, evs, i).now <= R.At(cfg, w0, evs, i + 1).now
    ensures evs[i].Call? ==> R.At(cfg, w0, evs, i).now == R.At(cfg, w0, evs, i + 1).now
  {
    hide Apply, Atomic.Generates, Atomic.Consumes, Atomic.Miscounts, Atomic.SessionOf;
    var w := R.At(cfg, w0, evs, i);
    KindsDoNotMix(cfg, w, evs[i]);
    if evs[i].Call? {
      var req := evs[i].req;
      CallKeepsNow(cfg, w, req);
      if req.SendOTP? { SendOnCounter(cfg, w, req, k); }
      else if req.VerifyOTP? { VerifyOnCounter(cfg, w, req, k); }
      else { OtherOnCounter(cfg, w, req, k); }
    }
  }

  lemma KindsDoNotMix(cfg: Config, w: World, e: R.Event)
    ensures e.Call? && Atomic.Generates(cfg, w, e.req) ==> e.req.SendOTP?
    ensures e.Call? && (Atomic.Consumes(cfg, w, e.req) || Atomic.Miscounts(cfg, w, e.req)) ==> e.req.VerifyOTP?
    ensures e.Call? ==> !(Atomic.Consumes(cfg, w, e.req) && Atomic.Miscounts(cfg, w, e.req))
  {
  }

  lemma CallKeepsNow(cfg: Config, w: World, req: Request)
    ensures Apply(cfg, w, req).0.now == w.now
  {
    hide Apply;
    StartFits(req);
    FinishKeepsNow(cfg, w, req, Start(req));
    ApplyIsFinish(cfg, w, req);
  }

  lemma ApplyIsFinish(cfg: Config, w: World, req: Request)
    ensures Fits(req, Start(req)) && Apply(cfg, w, req) == Finish(cfg, w, req, Start(req))
  {
    StartFits(req);
    hide Finish, Fits;
  }

  lemma {:induction false} FinishKeepsNow(cfg: Config, w: World, req: Request, pc: Pc)
    requires Fits(req, pc)
    ensures Finish(cfg, w, req, pc).0.now == w.now
    decreases Rank(pc)
  {
    hide Step, Fits;
    if !pc.Done? {
      StepFits(cfg, w, req, pc);
      FinishUnfolds(cfg, w, req, pc);
      FinishKeepsNow(cfg, Step(cfg, w, req, pc).0, req, Step(cfg, w, req, pc).1);
    }
  }

  lemma {:induction false} PositiveAt(cfg: Config, w0: World, evs: seq<R.Event>, k: Key, i: nat)
    requires i <= |evs| && IsCounterKey(k) && k !in w0.store
    ensures OtpLimits.Positive(R.At(cfg, w0, evs, i).store, k)
  {
    hide CountedAt, VerifiedAt, R.After;
    if i > 0 {
      PositiveAt(cfg, w0, evs, k, i - 1);
      EventOnCounter(cfg, w0, evs, k, i - 1);
    }
  }

  /** The counter is at least n and lasts an hour from the given time. */
  ghost predicate AtLeast(w: World, k: Key, n: nat, last: int) {
    && last <= w.now && k in w.store && w.store[k].value.Counter? && w.store[k].value.n >= n
    && w.store[k].deadline.Some? && w.store[k].deadline.value >= last + HOUR
  }

  /** Without a successful verification a counter does not shrink while it lasts. */
  lemma {:induction false} AtLeastStays(cfg: Config, w0: World, evs: seq<R.Event>, k: Key, i: nat, j: nat, n: nat, last: int)
    requires i <= j <= |evs| && IsCounterKey(k) && k !in w0.store && AtLeast(R.At(cfg, w0, evs, i), k, n, last)
    requires R.At(cfg, w0, evs, j).now < last + HOUR
    requires forall m | i <= m < j :: !VerifiedAt(cfg, w0, evs, k, m)
    ensures AtLeast(R.At(cfg, w0, evs, j), k, n, last)
  {
    hide CountedAt, VerifiedAt, R.After;
    if i < j {
      PositiveAt(cfg, w0, evs, k, j - 1);
      EventOnCounter(cfg, w0, evs, k, j - 1);
      AtLeastStays(cfg, w0, evs, k, i, j - 1, n, last);
    }
  }

  /** Events that count at the key, each less than an hour after the one before with no successful verification in between. */
  ghost predicate EventChain(cfg: Config, w0: World, evs: seq<R.Event>, k: Key, idx: seq<nat>)
    requires IsCounterKey(k) && |idx| > 0
  {
    var last := |idx| - 1;
    && idx[last] < |evs| && CountedAt(cfg, w0, evs, k, idx[last])
    && (last > 0 ==>
          && idx[last - 1] < idx[last] && EventChain(cfg, w0, evs, k, idx[..last])
          && R.At(cfg, w0, evs, idx[last]).now - R.At(cfg, w0, evs, idx[last - 1]).now < HOUR
          && forall m | idx[last - 1] < m < idx[last] :: !VerifiedAt(cfg, w0, evs, k, m))
  }

  lemma {:induction false} ChainCounts(cfg: Config, w0: World, evs: seq<R.Event>, k: Key, idx: seq<nat>)
    requires IsCounterKey(k) && |idx| > 0 && k !in w0.store && EventChain(cfg, w0, evs, k, idx)
    ensures var i := idx[|idx| - 1];
            |idx| <= O.Maximum(cfg, k) && AtLeast(R.At(cfg, w0, evs, i + 1), k, |idx|, R.At(cfg, w0, evs, i).now)
  {
    hide CountedAt, VerifiedAt, R.At, R.After;
    var i := idx[|idx| - 1];
    PositiveAt(cfg, w0, evs, k, i);
    EventOnCounter(cfg, w0, evs, k, i);
    CountedIsCall(cfg, w0, evs, k, i);
    if |idx| > 1 {
      var h := idx[|idx| - 2];
      ChainCounts(cfg, w0, evs, k, idx[..|idx| - 1]);
      AtLeastStays(cfg, w0, evs, k, h + 1, i, |idx| - 1, R.At(cfg, w0, evs, h).now);
    }
  }

  lemma CountedIsCall(cfg: Config, w0: World, evs: seq<R.Event>, k: Key, i: nat)
    requires IsCounterKey(k) && i < |evs| && CountedAt(cfg, w0, evs, k, i)
    ensures evs[i].Call?
  {
  }

  /**
   The rate limit and the attempts limit as the source states them: codes stored for one
   email, or wrong codes brought to its sessions, that follow each other with gaps under an
   hour and no successful verification in between, never number more than the maximum.
   */
  lemma AtMostMaximumPerStreak(cfg: Config, w0: World, evs: seq<R.Event>, k: Key, idx: seq<nat>)
    requires IsCounterKey(k) && k !in w0.store && |idx| > 0 && EventChain(cfg, w0, evs, k, idx)
    ensures |idx| <= O.Maximum(cfg, k)
  {
    ChainCounts(cfg, w0, evs, k, idx);
    hide EventChain;
  }
}
