/**
 The OTP counters when commands of overlapping calls interleave: check and increment are
 separate commands, so a counter can pass its maximum, but only by the number of overlapping
 calls less one; and no finished call leaves a counter behind that never expires.
 */
module Overshoot {
  import opened Wrappers
  import opened GoTime
  import opened Model
  import opened Keys
  import opened TimedStore
  import opened Tables
  import opened Service
  import opened Interleaved
  import GoErrors
  import KafkaProducer

  function Maximum(cfg: Config, k: Key): int
    requires IsCounterKey(k)
  {
    if k.Rate? then cfg.otpRateMaxPerHour else cfg.otpMaxVerifyAttempts
  }

  /** The call has passed the check of this counter and not yet incremented it. */
  predicate PassedCheck(req: Request, pc: Pc, k: Key) {
    || (k.Rate? && (pc.SendSave? || pc.SendIncr?) && req.SendOTP? && req.email == k.email)
    || (k.Attempts? && pc.VerifyCount? && pc.meta.email == k.email)
  }

  /** The call has incremented the counter and is about to set its expiry. */
  predicate WillExpire(req: Request, pc: Pc, k: Key) {
    || (k.Rate? && pc.SendExpire? && req.SendOTP? && req.email == k.email)
    || (k.Attempts? && pc.VerifyExpire? && pc.meta.email == k.email)
  }

  /** The call is between reading this counter and setting its expiry. */
  predicate UsesCounter(req: Request, pc: Pc, k: Key) {
    || PassedCheck(req, pc, k) || WillExpire(req, pc, k)
    || (k.Rate? && pc.SendRate? && req.SendOTP? && req.email == k.email)
    || (k.Attempts? && pc.VerifyAttempts? && pc.data.meta.email == k.email)
  }

  function Pending(s: Sys, k: Key): set<CallId> {
    set t | t in s.pcs && t in s.reqs && PassedCheck(s.reqs[t], s.pcs[t], k)
  }

  function Overlapping(s: Sys, k: Key): set<CallId> {
    set t | t in s.pcs && t in s.reqs && UsesCounter(s.reqs[t], s.pcs[t], k)
  }

  /** The counter as it is read, plus the increments already decided. */
  function Sum(s: Sys, k: Key): int { CountAt(s.w.store, k, s.w.now) + |Pending(s, k)| }

  predicate NonNegative(store: Store, k: Key) {
    k in store && store[k].value.Counter? ==> store[k].value.n >= 0
  }

  // ---- one command ----

  /** How one command treats the counter at k, told by where the call stands before and after it. */
  ghost predicate CommandOnCounter(cfg: Config, w: World, w': World, req: Request, pc: Pc, pc': Pc, k: Key)
    requires IsCounterKey(k)
  {
    var n, n' := CountAt(w.store, k, w.now), CountAt(w'.store, k, w'.now);
    && NonNegative(w'.store, k)
    && n' <= n + (if PassedCheck(req, pc, k) && !PassedCheck(req, pc', k) then 1 else 0)
    && (!PassedCheck(req, pc, k) && PassedCheck(req, pc', k) ==> n < Maximum(cfg, k) && n' == n)
    && (k in w'.store && w'.store[k].deadline.None? ==>
          WillExpire(req, pc', k) || (k in w.store && w.store[k].deadline.None? && !WillExpire(req, pc, k)))
    && (k in w'.store && w'.store[k].deadline.Some? ==>
          w'.store[k].deadline.value <= w.now + HOUR || (k in w.store && w.store[k].deadline == w'.store[k].deadline))
  }

  /** A command that leaves the counter's entry alone and does not pass its check. */
  lemma UntouchedCounter(cfg: Config, w: World, w': World, req: Request, pc: Pc, pc': Pc, k: Key)
    requires IsCounterKey(k) && NonNegative(w.store, k) && NonNegative(w'.store, k) && w'.now == w.now
    requires k in w.store <==> k in w'.store
    requires k in w.store ==> w'.store[k] == w.store[k]
    requires !WillExpire(req, pc, k) && (PassedCheck(req, pc', k) ==> PassedCheck(req, pc, k))
    ensures CommandOnCounter(cfg, w, w', req, pc, pc', k)
  {
  }

  lemma SendOnCounter(cfg: Config, w: World, req: Request, pc: Pc, k: Key)
    requires IsCounterKey(k) && req.SendOTP? && SendPc(pc) && NonNegative(w.store, k)
    ensures var (w', pc') := StepSend(cfg, w, req, pc); CommandOnCounter(cfg, w, w', req, pc, pc', k)
  {
    var (w', pc') := StepSend(cfg, w, req, pc);
    if k == Rate(req.email) {
      SendOnItsCounter(cfg, w, req, pc);
    } else {
      SendOffCounter(cfg, w, req, pc, k);
      UntouchedCounter(cfg, w, w', req, pc, pc', k);
    }
    hide *;
  }

  lemma SendOffCounter(cfg: Config, w: World, req: Request, pc: Pc, k: Key)
    requires IsCounterKey(k) && req.SendOTP? && SendPc(pc) && NonNegative(w.store, k) && k != Rate(req.email)
    ensures var (w', pc') := StepSend(cfg, w, req, pc);
            && NonNegative(w'.store, k) && w'.now == w.now && (k in w.store <==> k in w'.store)
            && (k in w.store ==> w'.store[k] == w.store[k])
            && !WillExpire(req, pc, k) && (PassedCheck(req, pc', k) ==> PassedCheck(req, pc, k))
  {
    hide UserByEmail, HashPassword, GoErrors.Is;
  }

  lemma SendOnItsCounter(cfg: Config, w: World, req: Request, pc: Pc)
    requires req.SendOTP? && SendPc(pc) && NonNegative(w.store, Rate(req.email))
    ensures var (w', pc') := StepSend(cfg, w, req, pc); CommandOnCounter(cfg, w, w', req, pc, pc', Rate(req.email))
  {
    hide UserByEmail, HashPassword, GoErrors.Is;
  }

  lemma VerifyOnCounter(cfg: Config, w: World, req: Request, pc: Pc, k: Key)
    requires IsCounterKey(k) && req.VerifyOTP? && VerifyPc(pc) && NonNegative(w.store, k)
    ensures var (w', pc') := StepVerify(cfg, w, req, pc); CommandOnCounter(cfg, w, w', req, pc, pc', k)
  {
    hide InsertUser, NewUser;
  }

  lemma CounterOffFootprint(cfg: Config, w: World, req: Request, pc: Pc, published: KafkaProducer.Outcome, k: Key)
    requires IsCounterKey(k) && Fits(req, pc) && !pc.Done? && !SendPc(pc) && !VerifyPc(pc)
    ensures k !in Footprint(req, pc) && !WillExpire(req, pc, k)
    ensures !PassedCheck(req, StepWith(cfg, w, req, pc, published).1, k)
  {
    StepFits(cfg, w, req, pc);
    hide StepWith, Fits;
    Dispatch(cfg, w, req, pc, published);
    if SignInPc(pc) { SignInStepFits(cfg, w, req, pc); }
    else if RotatePc(pc) { RotateStepFits(cfg, w, req, pc); }
    else { CacheStepFits(cfg, w, req, pc); }
    hide StepSignIn, StepRotate, StepCache;
  }

  lemma CommandOnCounterHolds(cfg: Config, w: World, req: Request, pc: Pc, published: KafkaProducer.Outcome, k: Key)
    requires IsCounterKey(k) && Fits(req, pc) && !pc.Done? && NonNegative(w.store, k)
    ensures var (w', pc') := StepWith(cfg, w, req, pc, published); CommandOnCounter(cfg, w, w', req, pc, pc', k)
  {
    Dispatch(cfg, w, req, pc, published);
    hide StepWith, StepSend, StepVerify, StepSignIn, StepRotate, StepCache, Fits, NonNegative;
    if pc.SendPublish? { PublishOnCounter(cfg, w, req, published, k); }
    else if SendPc(pc) { SendOnCounter(cfg, w, req, pc, k); }
    else if VerifyPc(pc) { VerifyOnCounter(cfg, w, req, pc, k); }
    else {
      CounterOffFootprint(cfg, w, req, pc, published, k);
      CommandFootprint(cfg, w, req, pc, published, k);
      StepKeepsTime(cfg, w, req, pc, published);
      var (w', pc') := StepWith(cfg, w, req, pc, published);
      SameIsNonNegative(w.store, w'.store, k);
      UntouchedCounter(cfg, w, w', req, pc, pc', k);
    }
    hide Footprint, WillExpire, PassedCheck, CommandOnCounter;
  }

  lemma SameIsNonNegative(s: Store, t: Store, k: Key)
    requires NonNegative(s, k) && SameEntry(s, t, k)
    ensures NonNegative(t, k)
  {
  }

  lemma PublishOnCounter(cfg: Config, w: World, req: Request, published: KafkaProducer.Outcome, k: Key)
    requires IsCounterKey(k) && req.SendOTP? && NonNegative(w.store, k)
    ensures var (w', pc') := StepSend(cfg, w, req.(publish := published), SendPublish);
            CommandOnCounter(cfg, w, w', req, SendPublish, pc', k)
  {
  }

  // ---- the system ----

  lemma AdvanceOnPending(cfg: Config, s: Sys, id: CallId, published: KafkaProducer.Outcome, k: Key)
    requires IsCounterKey(k) && Enabled(s, Advance(id, published))
    ensures var s' := Exec(cfg, s, Advance(id, published));
            Pending(s', k) == if PassedCheck(s.reqs[id], s'.pcs[id], k) then Pending(s, k) + {id} else Pending(s, k) - {id}
  {
    hide StepWith, PassedCheck, Fits;
  }

  lemma PendingChange(cfg: Config, s: Sys, id: CallId, published: KafkaProducer.Outcome, k: Key)
    requires IsCounterKey(k) && Enabled(s, Advance(id, published))
    ensures var s' := Exec(cfg, s, Advance(id, published));
            |Pending(s', k)| - |Pending(s, k)| ==
              (if PassedCheck(s.reqs[id], s'.pcs[id], k) then 1 else 0) - (if PassedCheck(s.reqs[id], s.pcs[id], k) then 1 else 0)
  {
    hide StepWith, PassedCheck, Fits;
    AdvanceOnPending(cfg, s, id, published, k);
    var s' := Exec(cfg, s, Advance(id, published));
    var rest := Pending(s, k) - {id};
    assert Pending(s, k) == if PassedCheck(s.reqs[id], s.pcs[id], k) then rest + {id} else rest;
    assert Pending(s', k) == if PassedCheck(s.reqs[id], s'.pcs[id], k) then rest + {id} else rest;
  }

  /** A command that raises the sum is a check that passed, and then the overlapping calls bound it. */
  lemma AdvanceOnSum(cfg: Config, s: Sys, id: CallId, published: KafkaProducer.Outcome, k: Key)
    requires IsCounterKey(k) && Enabled(s, Advance(id, published)) && !s.pcs[id].Done? && NonNegative(s.w.store, k)
    ensures var s' := Exec(cfg, s, Advance(id, published));
            && NonNegative(s'.w.store, k)
            && (Sum(s', k) <= Sum(s, k) || Sum(s', k) <= Maximum(cfg, k) - 1 + |Overlapping(s', k)|)
  {
    var s' := Exec(cfg, s, Advance(id, published));
    CommandOnCounterHolds(cfg, s.w, s.reqs[id], s.pcs[id], published, k);
    PendingChange(cfg, s, id, published, k);
    SubsetSize(Pending(s', k), Overlapping(s', k));
    hide StepWith, Fits, Pending, Overlapping, NonNegative, PassedCheck;
  }

  lemma ActionOnSum(cfg: Config, s: Sys, a: Action, k: Key)
    requires IsCounterKey(k) && NonNegative(s.w.store, k)
    ensures var s' := Exec(cfg, s, a);
            && NonNegative(s'.w.store, k)
            && (Sum(s', k) <= Sum(s, k) || Sum(s', k) <= Maximum(cfg, k) - 1 + |Overlapping(s', k)|)
  {
    if Enabled(s, a) {
      if a.Advance? {
        if s.pcs[a.id].Done? { DoneStays(cfg, s, a.id, a.published); }
        else { AdvanceOnSum(cfg, s, a.id, a.published, k); }
      } else {
        QuietOnSum(cfg, s, a, k);
      }
    }
    hide *;
  }

  lemma QuietOnSum(cfg: Config, s: Sys, a: Action, k: Key)
    requires IsCounterKey(k) && NonNegative(s.w.store, k) && Enabled(s, a) && !a.Advance?
    ensures var s' := Exec(cfg, s, a);
            NonNegative(s'.w.store, k) && Pending(s', k) == Pending(s, k) && Sum(s', k) <= Sum(s, k)
  {
  }

  /** At no point of the run do more than n calls use the counter at k. */
  ghost predicate AtMostOverlapping(cfg: Config, s0: Sys, acts: seq<Action>, k: Key, n: nat) {
    |Overlapping(Run(cfg, s0, acts), k)| <= n &&
    (acts != [] ==> AtMostOverlapping(cfg, s0, acts[..|acts| - 1], k, n))
  }

  /**
   With at most n overlapping calls for its email, an OTP counter together with the increments
   already decided never exceeds its maximum by more than n - 1, through expiries and deletes.
   */
  lemma {:induction false} OvershootIsBounded(cfg: Config, s0: Sys, acts: seq<Action>, k: Key, n: nat)
    requires IsCounterKey(k) && Initial(s0) && AtMostOverlapping(cfg, s0, acts, k, n)
    ensures var s := Run(cfg, s0, acts);
            && NonNegative(s.w.store, k)
            && (Sum(s, k) == 0 || Sum(s, k) <= Maximum(cfg, k) + n - 1)
  {
    if acts == [] {
      assert Pending(s0, k) == {};
    } else {
      var front := acts[..|acts| - 1];
      OvershootIsBounded(cfg, s0, front, k, n);
      ActionOnSum(cfg, Run(cfg, s0, front), acts[|acts| - 1], k);
      SumNonNegative(Run(cfg, s0, acts), k);
      hide Exec, Sum, NonNegative, Overlapping, Initial;
    }
  }

  lemma SumNonNegative(s: Sys, k: Key)
    requires NonNegative(s.w.store, k)
    ensures Sum(s, k) >= 0
  {
  }

  // ---- counters always expire ----

  /** A counter has an expiry within the hour, or some call is about to set one. */
  ghost predicate Expires(s: Sys, k: Key) {
    k in s.w.store ==>
      if s.w.store[k].deadline.Some? then s.w.store[k].deadline.value <= s.w.now + HOUR
      else exists t | t in s.pcs && t in s.reqs :: WillExpire(s.reqs[t], s.pcs[t], k)
  }

  lemma AdvanceKeepsExpires(cfg: Config, s: Sys, id: CallId, published: KafkaProducer.Outcome, k: Key)
    requires IsCounterKey(k) && Enabled(s, Advance(id, published)) && !s.pcs[id].Done? && NonNegative(s.w.store, k)
    requires Expires(s, k)
    ensures Expires(Exec(cfg, s, Advance(id, published)), k)
  {
    var s' := Exec(cfg, s, Advance(id, published));
    CommandOnCounterHolds(cfg, s.w, s.reqs[id], s.pcs[id], published, k);
    StepKeepsTime(cfg, s.w, s.reqs[id], s.pcs[id], published);
    hide StepWith, Fits, NonNegative, WillExpire, PassedCheck, CountAt;
    if k in s'.w.store && s'.w.store[k].deadline.None? && !WillExpire(s.reqs[id], s'.pcs[id], k) {
      var t :| t in s.pcs && t in s.reqs && WillExpire(s.reqs[t], s.pcs[t], k);
      assert t != id;
      assert s'.pcs[t] == s.pcs[t];
    }
  }

  /**
   In every reachable state every OTP counter expires within an hour, unless a call stands
   between its increment and its expiry at that moment; so a rate limit or a lockout never
   outlives the last counted call by more than an hour.
   */
  lemma {:induction false} CountersExpire(cfg: Config, s0: Sys, acts: seq<Action>, k: Key)
    requires IsCounterKey(k) && Initial(s0)
    ensures NonNegative(Run(cfg, s0, acts).w.store, k) && Expires(Run(cfg, s0, acts), k)
  {
    if acts != [] {
      var front, a := acts[..|acts| - 1], acts[|acts| - 1];
      CountersExpire(cfg, s0, front, k);
      var s := Run(cfg, s0, front);
      ActionOnSum(cfg, s, a, k);
      if Enabled(s, a) && a.Advance? {
        if s.pcs[a.id].Done? { DoneStays(cfg, s, a.id, a.published); }
        else { AdvanceKeepsExpires(cfg, s, a.id, a.published, k); }
      } else {
        QuietKeepsExpires(cfg, s, a, k);
      }
      hide Exec, Sum, NonNegative, Initial, Expires, Enabled;
    }
  }

  lemma QuietKeepsExpires(cfg: Config, s: Sys, a: Action, k: Key)
    requires Expires(s, k) && !(Enabled(s, a) && a.Advance?)
    ensures Expires(Exec(cfg, s, a), k)
  {
    if Enabled(s, a) && a.Begin? && k in s.w.store && s.w.store[k].deadline.None? {
      var t :| t in s.pcs && t in s.reqs && WillExpire(s.reqs[t], s.pcs[t], k);
      var s' := Exec(cfg, s, a);
      assert s'.pcs[t] == s.pcs[t] && s'.reqs[t] == s.reqs[t];
    }
  }
}
