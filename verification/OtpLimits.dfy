/**
 The OTP rate limit and the attempt lockout over every interleaving of commands. The
 reference is the streak of a counter key: how many INCRs have followed each other with gaps
 under an hour since the last DEL of a successful verification. It is read off the commands
 alone. Time may pass between a call's INCR and its EXPIRE, so the counter can fall behind
 its streak or outlive it; CounterIsStreak says exactly when it does neither.
 */
module OtpLimits {
  import opened Wrappers
  import opened GoTime
  import opened Model
  import opened Keys
  import opened TimedStore
  import opened Tables
  import opened Service
  import opened Interleaved
  import KafkaProducer
  import O = Overshoot

  // ---- the commands on a counter ----

  predicate BumpsOn(req: Request, pc: Pc, k: Key) {
    || (k.Rate? && pc.SendIncr? && req.SendOTP? && req.email == k.email)
    || (k.Attempts? && pc.VerifyCount? && pc.meta.email == k.email)
  }

  /** The DEL of a verification with the right code. */
  predicate ClearsOn(pc: Pc, k: Key)
    requires IsCounterKey(k)
  {
    pc.VerifyConsume? && pc.meta.email == k.email
  }

  datatype CounterOp = Keep | Bump | Renew | Clear

  function OpOf(req: Request, pc: Pc, k: Key): CounterOp
    requires IsCounterKey(k)
  {
    if BumpsOn(req, pc, k) then Bump
    else if O.WillExpire(req, pc, k) then Renew
    else if ClearsOn(pc, k) then Clear
    else Keep
  }

  ghost function OpOn(s: Sys, a: Action, k: Key): CounterOp
    requires IsCounterKey(k)
  {
    if Commands(s, a) then OpOf(s.reqs[a.id], s.pcs[a.id], k) else Keep
  }

  predicate CounterOrAbsent(s: Store, k: Key) { k in s ==> s[k].value.Counter? }

  /** What an operation leaves of the counter. */
  ghost predicate CounterMoves(w: World, store: Store, k: Key, op: CounterOp) {
    match op
    case Keep => SameEntry(w.store, store, k)
    case Bump =>
      k in store && store[k] == if Live(w.store, k, w.now) then Entry(Counter(CountAt(w.store, k, w.now) + 1), w.store[k].deadline)
                                else Entry(Counter(1), None)
    case Renew =>
      if Live(w.store, k, w.now) then k in store && store[k] == w.store[k].(deadline := Some(w.now + HOUR))
      else SameEntry(w.store, store, k)
    case Clear => k !in store
  }

  lemma SendOnCounter(cfg: Config, w: World, req: Request, pc: Pc, k: Key)
    requires IsCounterKey(k) && req.SendOTP? && SendPc(pc) && CounterOrAbsent(w.store, k)
    ensures CounterMoves(w, StepSend(cfg, w, req, pc).0.store, k, OpOf(req, pc, k))
  {
    hide UserByEmail, HashPassword;
  }

  lemma VerifyOnCounter(cfg: Config, w: World, req: Request, pc: Pc, k: Key)
    requires IsCounterKey(k) && req.VerifyOTP? && VerifyPc(pc) && CounterOrAbsent(w.store, k)
    ensures CounterMoves(w, StepVerify(cfg, w, req, pc).0.store, k, OpOf(req, pc, k))
  {
    hide InsertUser, NewUser;
  }

  lemma CounterOffFootprint(req: Request, pc: Pc, k: Key)
    requires IsCounterKey(k) && Fits(req, pc) && !pc.Done? && !SendPc(pc) && !VerifyPc(pc)
    ensures k !in Footprint(req, pc) && OpOf(req, pc, k) == Keep
  {
  }

  lemma CommandOnCounter(cfg: Config, w: World, req: Request, pc: Pc, published: KafkaProducer.Outcome, k: Key)
    requires IsCounterKey(k) && Fits(req, pc) && !pc.Done? && CounterOrAbsent(w.store, k)
    ensures CounterMoves(w, StepWith(cfg, w, req, pc, published).0.store, k, OpOf(req, pc, k))
  {
    Dispatch(cfg, w, req, pc, published);
    hide StepWith, StepSend, StepVerify, StepSignIn, StepRotate, StepCache, Fits, OpOf, Footprint;
    if SendPc(pc) {
      PublishingIsNoOp(req, published, pc, k);
      SendOnCounter(cfg, w, if pc.SendPublish? then req.(publish := published) else req, pc, k);
    } else if VerifyPc(pc) {
      VerifyOnCounter(cfg, w, req, pc, k);
    } else {
      CounterOffFootprint(req, pc, k);
      CommandFootprint(cfg, w, req, pc, published, k);
    }
  }

  lemma PublishingIsNoOp(req: Request, published: KafkaProducer.Outcome, pc: Pc, k: Key)
    requires IsCounterKey(k) && req.SendOTP?
    ensures OpOf(req.(publish := published), pc, k) == OpOf(req, pc, k)
  {
  }

  lemma ActionOnCounter(cfg: Config, s: Sys, a: Action, k: Key)
    requires IsCounterKey(k) && CounterOrAbsent(s.w.store, k)
    ensures CounterMoves(s.w, Exec(cfg, s, a).w.store, k, OpOn(s, a, k))
  {
    hide StepWith, Fits, OpOf, FreshRequest;
    if Commands(s, a) { CommandOnCounter(cfg, s.w, s.reqs[a.id], s.pcs[a.id], a.published, k); }
    else if a.Advance? && Enabled(s, a) { DoneStays(cfg, s, a.id, a.published); }
  }

  // ---- the streak ----

  datatype Streak = Streak(n: nat, last: int)

  predicate Alive(c: Streak, now: int) { c.n > 0 && now - c.last < HOUR }

  function Running(c: Streak, now: int): nat { if Alive(c, now) then c.n else 0 }

  function StreakAfter(c: Streak, op: CounterOp, now: int): Streak {
    match op
    case Bump => Streak(Running(c, now) + 1, now)
    case Clear => Streak(0, 0)
    case _ => c
  }

  /** The streak of a key before the i-th action. */
  ghost function StreakAt(cfg: Config, s0: Sys, acts: seq<Action>, k: Key, i: nat): Streak
    requires i <= |acts| && IsCounterKey(k)
  {
    if i == 0 then Streak(0, 0)
    else
      var s := StateAt(cfg, s0, acts, i - 1);
      StreakAfter(StreakAt(cfg, s0, acts, k, i - 1), OpOn(s, acts[i - 1], k), s.w.now)
  }

  /** Some call stands between its INCR of the key and its EXPIRE. */
  ghost predicate AwaitsExpire(s: Sys, k: Key) {
    exists t | t in s.pcs && t in s.reqs :: O.WillExpire(s.reqs[t], s.pcs[t], k)
  }

  ghost predicate PromptAt(s: Sys, a: Action, k: Key) {
    a.Tick? && a.d > 0 ==> !AwaitsExpire(s, k)
  }

  /** No time passes between a call's INCR and its EXPIRE. */
  ghost predicate Prompt(cfg: Config, s0: Sys, acts: seq<Action>, k: Key) {
    forall n | 0 <= n < |acts| :: PromptAt(StateAt(cfg, s0, acts, n), acts[n], k)
  }

  /** The entry that a streak leaves in the store. */
  ghost predicate Recorded(s: Sys, k: Key, c: Streak) {
    if c.n == 0 then k !in s.w.store
    else
      && k in s.w.store && s.w.store[k].value == Counter(c.n) && c.last <= s.w.now
      && (AwaitsExpire(s, k) ==> c.last == s.w.now)
      && (s.w.store[k].deadline == Some(c.last + HOUR) ||
          (AwaitsExpire(s, k) && (s.w.store[k].deadline.Some? ==> s.w.now < s.w.store[k].deadline.value)))
  }

  lemma RecordedCounts(s: Sys, k: Key, c: Streak)
    requires Recorded(s, k, c)
    ensures CountAt(s.w.store, k, s.w.now) == Running(c, s.w.now) && CounterOrAbsent(s.w.store, k)
    ensures Live(s.w.store, k, s.w.now) <==> Alive(c, s.w.now)
  {
    hide AwaitsExpire;
  }

  /** A command other than an INCR of the key leaves nobody new awaiting its EXPIRE. */
  lemma AwaitsChange(cfg: Config, s: Sys, a: Action, k: Key)
    requires IsCounterKey(k)
    ensures OpOn(s, a, k).Keep? ==> AwaitsExpire(Exec(cfg, s, a), k) == AwaitsExpire(s, k)
    ensures OpOn(s, a, k).Bump? ==> AwaitsExpire(Exec(cfg, s, a), k)
    ensures OpOn(s, a, k).Renew? ==> AwaitsExpire(s, k)
  {
    var s' := Exec(cfg, s, a);
    if OpOn(s, a, k).Bump? {
      BumpAwaits(cfg, s, a, k);
    } else if OpOn(s, a, k).Keep? {
      forall t ensures (t in s'.pcs && t in s'.reqs && O.WillExpire(s'.reqs[t], s'.pcs[t], k)) <==>
                       (t in s.pcs && t in s.reqs && O.WillExpire(s.reqs[t], s.pcs[t], k)) {
        KeepAwaits(cfg, s, a, k, t);
      }
    }
    hide Exec, O.WillExpire;
  }

  lemma BumpAwaits(cfg: Config, s: Sys, a: Action, k: Key)
    requires IsCounterKey(k) && OpOn(s, a, k).Bump?
    ensures var s' := Exec(cfg, s, a);
            a.id in s'.pcs && a.id in s'.reqs && O.WillExpire(s'.reqs[a.id], s'.pcs[a.id], k)
  {
    Dispatch(cfg, s.w, s.reqs[a.id], s.pcs[a.id], a.published);
    hide StepWith;
  }

  lemma CommandsReachExpire(cfg: Config, w: World, req: Request, pc: Pc, published: KafkaProducer.Outcome, k: Key)
    requires IsCounterKey(k) && Fits(req, pc) && !pc.Done? && OpOf(req, pc, k).Keep?
    ensures !O.WillExpire(req, StepWith(cfg, w, req, pc, published).1, k)
  {
    Dispatch(cfg, w, req, pc, published);
    hide StepWith, Fits;
    if SignInPc(pc) { SignInStepFits(cfg, w, req, pc); }
    hide StepSignIn;
  }

  lemma KeepAwaits(cfg: Config, s: Sys, a: Action, k: Key, t: CallId)
    requires IsCounterKey(k) && OpOn(s, a, k).Keep?
    ensures var s' := Exec(cfg, s, a);
            (t in s'.pcs && t in s'.reqs && O.WillExpire(s'.reqs[t], s'.pcs[t], k)) <==>
            (t in s.pcs && t in s.reqs && O.WillExpire(s.reqs[t], s.pcs[t], k))
  {
    if Commands(s, a) { CommandsReachExpire(cfg, s.w, s.reqs[a.id], s.pcs[a.id], a.published, k); }
    else if a.Advance? && Enabled(s, a) { DoneStays(cfg, s, a.id, a.published); }
    hide StepWith;
  }

  lemma RecordedKept(cfg: Config, s: Sys, a: Action, k: Key, c: Streak)
    requires IsCounterKey(k) && Recorded(s, k, c) && PromptAt(s, a, k)
    ensures Recorded(Exec(cfg, s, a), k, StreakAfter(c, OpOn(s, a, k), s.w.now))
  {
    RecordedCounts(s, k, c);
    AwaitsChange(cfg, s, a, k);
    ActionOnCounter(cfg, s, a, k);
    TimeGoesOn(cfg, s, a);
    TickOrNot(cfg, s, a, k);
    hide Exec, OpOn, AwaitsExpire;
  }

  lemma TickOrNot(cfg: Config, s: Sys, a: Action, k: Key)
    requires IsCounterKey(k)
    ensures a.Tick? ==> Exec(cfg, s, a).w.now == s.w.now + a.d
    ensures !a.Tick? ==> Exec(cfg, s, a).w.now == s.w.now
    ensures a.Tick? ==> OpOn(s, a, k).Keep?
  {
    TimeGoesOn(cfg, s, a);
    hide StepWith;
  }

  lemma {:induction false} PromptIsRecorded(cfg: Config, s0: Sys, acts: seq<Action>, k: Key, i: nat)
    requires i <= |acts| && IsCounterKey(k) && k !in s0.w.store && Prompt(cfg, s0, acts, k)
    ensures var c, s := StreakAt(cfg, s0, acts, k, i), StateAt(cfg, s0, acts, i);
            Recorded(s, k, c) && CountAt(s.w.store, k, s.w.now) == Running(c, s.w.now)
  {
    hide Exec, OpOn, Recorded, PromptAt, StreakAfter;
    if i == 0 {
      NothingRecorded(s0, k);
    } else {
      PromptIsRecorded(cfg, s0, acts, k, i - 1);
      assert PromptAt(StateAt(cfg, s0, acts, i - 1), acts[i - 1], k);
      RecordedKept(cfg, StateAt(cfg, s0, acts, i - 1), acts[i - 1], k, StreakAt(cfg, s0, acts, k, i - 1));
    }
    RecordedCounts(StateAt(cfg, s0, acts, i), k, StreakAt(cfg, s0, acts, k, i));
  }

  lemma NothingRecorded(s: Sys, k: Key)
    requires k !in s.w.store
    ensures Recorded(s, k, Streak(0, 0))
  {
  }

  // ---- exactly when the counter is the streak ----

  /** The counter expires while its streak is still running. */
  predicate LosesAt(s: Sys, a: Action, k: Key, c: Streak) {
    a.Tick? && Live(s.w.store, k, s.w.now) && !Live(s.w.store, k, s.w.now + a.d) && Alive(c, s.w.now + a.d)
  }

  /** The streak ends while its counter is still there. */
  predicate OutlivesAt(s: Sys, a: Action, k: Key, c: Streak) {
    a.Tick? && Alive(c, s.w.now) && !Alive(c, s.w.now + a.d) && Live(s.w.store, k, s.w.now + a.d)
  }

  /** Action n of the run is such an expiry. */
  ghost predicate LosesHere(cfg: Config, s0: Sys, acts: seq<Action>, k: Key, n: nat)
    requires n < |acts| && IsCounterKey(k)
  {
    LosesAt(StateAt(cfg, s0, acts, n), acts[n], k, StreakAt(cfg, s0, acts, k, n))
  }

  ghost predicate OutlivesHere(cfg: Config, s0: Sys, acts: seq<Action>, k: Key, n: nat)
    requires n < |acts| && IsCounterKey(k)
  {
    OutlivesAt(StateAt(cfg, s0, acts, n), acts[n], k, StreakAt(cfg, s0, acts, k, n))
  }

  ghost predicate NeverLoses(cfg: Config, s0: Sys, acts: seq<Action>, k: Key, i: nat)
    requires i <= |acts| && IsCounterKey(k)
  {
    forall n | 0 <= n < i :: !LosesHere(cfg, s0, acts, k, n)
  }

  ghost predicate NeverOutlives(cfg: Config, s0: Sys, acts: seq<Action>, k: Key, i: nat)
    requires i <= |acts| && IsCounterKey(k)
  {
    forall n | 0 <= n < i :: !OutlivesHere(cfg, s0, acts, k, n)
  }

  predicate NoLess(s: Sys, k: Key, c: Streak) { Running(c, s.w.now) <= CountAt(s.w.store, k, s.w.now) }

  predicate NoMore(s: Sys, k: Key, c: Streak) { CountAt(s.w.store, k, s.w.now) <= Running(c, s.w.now) }

  predicate Positive(s: Store, k: Key) { k in s ==> s[k].value.Counter? && s[k].value.n >= 1 }

  lemma PositiveKept(cfg: Config, s: Sys, a: Action, k: Key)
    requires IsCounterKey(k) && Positive(s.w.store, k)
    ensures Positive(Exec(cfg, s, a).w.store, k)
  {
    ActionOnCounter(cfg, s, a, k);
    hide Exec, OpOn;
  }

  lemma {:induction false} PositiveAlways(cfg: Config, s0: Sys, acts: seq<Action>, k: Key, i: nat)
    requires i <= |acts| && IsCounterKey(k) && k !in s0.w.store
    ensures Positive(StateAt(cfg, s0, acts, i).w.store, k)
  {
    hide Exec;
    if i > 0 {
      PositiveAlways(cfg, s0, acts, k, i - 1);
      PositiveKept(cfg, StateAt(cfg, s0, acts, i - 1), acts[i - 1], k);
    }
  }

  /**
   One action: only an expiry of the counter under a running streak makes it fall behind, and
   only the end of the streak under a live counter lets it get ahead.
   */
  lemma BoundsKept(cfg: Config, s: Sys, a: Action, k: Key, c: Streak)
    requires IsCounterKey(k) && Positive(s.w.store, k)
    ensures var t, c' := Exec(cfg, s, a), StreakAfter(c, OpOn(s, a, k), s.w.now);
            && (NoLess(s, k, c) ==> (NoLess(t, k, c') <==> !LosesAt(s, a, k, c)))
            && (NoMore(s, k, c) ==> (NoMore(t, k, c') <==> !OutlivesAt(s, a, k, c)))
  {
    ActionOnCounter(cfg, s, a, k);
    TickOrNot(cfg, s, a, k);
    TickKeepsStore(cfg, s, a);
    hide Exec, OpOn;
  }

  lemma TickKeepsStore(cfg: Config, s: Sys, a: Action)
    ensures a.Tick? ==> Exec(cfg, s, a).w.store == s.w.store
  {
  }

  ghost predicate NoLessAt(cfg: Config, s0: Sys, acts: seq<Action>, k: Key, j: nat)
    requires j <= |acts| && IsCounterKey(k)
  {
    NoLess(StateAt(cfg, s0, acts, j), k, StreakAt(cfg, s0, acts, k, j))
  }

  ghost predicate NoMoreAt(cfg: Config, s0: Sys, acts: seq<Action>, k: Key, j: nat)
    requires j <= |acts| && IsCounterKey(k)
  {
    NoMore(StateAt(cfg, s0, acts, j), k, StreakAt(cfg, s0, acts, k, j))
  }

  lemma BoundsHere(cfg: Config, s0: Sys, acts: seq<Action>, k: Key, n: nat)
    requires n < |acts| && IsCounterKey(k) && k !in s0.w.store
    ensures NoLessAt(cfg, s0, acts, k, n) ==> (NoLessAt(cfg, s0, acts, k, n + 1) <==> !LosesHere(cfg, s0, acts, k, n))
    ensures NoMoreAt(cfg, s0, acts, k, n) ==> (NoMoreAt(cfg, s0, acts, k, n + 1) <==> !OutlivesHere(cfg, s0, acts, k, n))
  {
    hide Exec, OpOn, StreakAfter, LosesAt, OutlivesAt, Positive, NoLess, NoMore;
    PositiveAlways(cfg, s0, acts, k, n);
    BoundsKept(cfg, StateAt(cfg, s0, acts, n), acts[n], k, StreakAt(cfg, s0, acts, k, n));
  }

  lemma BoundsAtStart(cfg: Config, s0: Sys, acts: seq<Action>, k: Key)
    requires IsCounterKey(k) && k !in s0.w.store
    ensures NoLessAt(cfg, s0, acts, k, 0) && NoMoreAt(cfg, s0, acts, k, 0)
  {
  }

  /** In every run the counter never falls behind its streak if and only if it never expires while its streak runs. */
  lemma {:induction false} CountsNoLessExactly(cfg: Config, s0: Sys, acts: seq<Action>, k: Key, i: nat)
    requires i <= |acts| && IsCounterKey(k) && k !in s0.w.store
    ensures (forall j | 0 <= j <= i :: NoLessAt(cfg, s0, acts, k, j)) <==> NeverLoses(cfg, s0, acts, k, i)
  {
    hide NoLessAt, NoMoreAt, LosesHere, OutlivesHere;
    if i == 0 {
      BoundsAtStart(cfg, s0, acts, k);
    } else {
      CountsNoLessExactly(cfg, s0, acts, k, i - 1);
      BoundsHere(cfg, s0, acts, k, i - 1);
    }
  }

  /** And it never gets ahead of its streak if and only if it never outlives it. */
  lemma {:induction false} CountsNoMoreExactly(cfg: Config, s0: Sys, acts: seq<Action>, k: Key, i: nat)
    requires i <= |acts| && IsCounterKey(k) && k !in s0.w.store
    ensures (forall j | 0 <= j <= i :: NoMoreAt(cfg, s0, acts, k, j)) <==> NeverOutlives(cfg, s0, acts, k, i)
  {
    hide NoLessAt, NoMoreAt, LosesHere, OutlivesHere;
    if i == 0 {
      BoundsAtStart(cfg, s0, acts, k);
    } else {
      CountsNoMoreExactly(cfg, s0, acts, k, i - 1);
      BoundsHere(cfg, s0, acts, k, i - 1);
    }
  }

  ghost predicate IsStreak(cfg: Config, s0: Sys, acts: seq<Action>, k: Key, j: nat)
    requires j <= |acts| && IsCounterKey(k)
  {
    var s := StateAt(cfg, s0, acts, j);
    CountAt(s.w.store, k, s.w.now) == Running(StreakAt(cfg, s0, acts, k, j), s.w.now)
  }

  /**
   In every interleaving the counter that the handlers read is the length of the running
   streak at every point of the run if and only if it neither expires while the streak runs
   nor outlives it.
   */
  lemma CounterIsStreak(cfg: Config, s0: Sys, acts: seq<Action>, k: Key, i: nat)
    requires i <= |acts| && IsCounterKey(k) && k !in s0.w.store
    ensures (forall j | 0 <= j <= i :: IsStreak(cfg, s0, acts, k, j))
            <==> NeverLoses(cfg, s0, acts, k, i) && NeverOutlives(cfg, s0, acts, k, i)
  {
    CountsNoLessExactly(cfg, s0, acts, k, i);
    CountsNoMoreExactly(cfg, s0, acts, k, i);
    hide NeverLoses, NeverOutlives, IsStreak, NoLessAt, NoMoreAt;
    forall j | 0 <= j <= i
      ensures IsStreak(cfg, s0, acts, k, j) <==> NoLessAt(cfg, s0, acts, k, j) && NoMoreAt(cfg, s0, acts, k, j)
    {
      NeitherIsBoth(cfg, s0, acts, k, j);
    }
  }

  lemma NeitherIsBoth(cfg: Config, s0: Sys, acts: seq<Action>, k: Key, j: nat)
    requires j <= |acts| && IsCounterKey(k)
    ensures IsStreak(cfg, s0, acts, k, j) <==> NoLessAt(cfg, s0, acts, k, j) && NoMoreAt(cfg, s0, acts, k, j)
  {
    hide StateAt, StreakAt, CountAt, Running;
  }

  /** A live counter that awaits no EXPIRE lasts at least an hour from the last INCR. */
  ghost predicate Renewed(s: Sys, k: Key, c: Streak) {
    c.n > 0 ==>
      && c.last <= s.w.now
      && (Live(s.w.store, k, s.w.now) && !AwaitsExpire(s, k) ==>
            s.w.store[k].deadline.Some? && c.last + HOUR <= s.w.store[k].deadline.value)
  }

  lemma RenewedKept(cfg: Config, s: Sys, a: Action, k: Key, c: Streak)
    requires IsCounterKey(k) && Positive(s.w.store, k) && Renewed(s, k, c)
    ensures Renewed(Exec(cfg, s, a), k, StreakAfter(c, OpOn(s, a, k), s.w.now))
  {
    AwaitsChange(cfg, s, a, k);
    ActionOnCounter(cfg, s, a, k);
    TimeGoesOn(cfg, s, a);
    TickOrNot(cfg, s, a, k);
    hide Exec, OpOn, AwaitsExpire;
  }

  lemma {:induction false} RenewedAlways(cfg: Config, s0: Sys, acts: seq<Action>, k: Key, i: nat)
    requires i <= |acts| && IsCounterKey(k) && k !in s0.w.store
    ensures Renewed(StateAt(cfg, s0, acts, i), k, StreakAt(cfg, s0, acts, k, i))
  {
    hide Exec, OpOn, StreakAfter, Positive;
    if i > 0 {
      RenewedAlways(cfg, s0, acts, k, i - 1);
      PositiveAlways(cfg, s0, acts, k, i - 1);
      hide Renewed;
      RenewedKept(cfg, StateAt(cfg, s0, acts, i - 1), acts[i - 1], k, StreakAt(cfg, s0, acts, k, i - 1));
    }
  }

  /** A count is only ever lost while some call stands between its INCR and its EXPIRE. */
  lemma LossNeedsAPendingExpire(cfg: Config, s0: Sys, acts: seq<Action>, k: Key, n: nat)
    requires n < |acts| && IsCounterKey(k) && k !in s0.w.store
    requires LosesHere(cfg, s0, acts, k, n)
    ensures AwaitsExpire(StateAt(cfg, s0, acts, n), k)
  {
    RenewedAlways(cfg, s0, acts, k, n);
    hide StateAt, StreakAt, AwaitsExpire;
  }

  /** Where no time passes between a call's INCR and its EXPIRE the counter is the streak. */
  lemma PromptIsExact(cfg: Config, s0: Sys, acts: seq<Action>, k: Key)
    requires IsCounterKey(k) && k !in s0.w.store && Prompt(cfg, s0, acts, k)
    ensures NeverLoses(cfg, s0, acts, k, |acts|) && NeverOutlives(cfg, s0, acts, k, |acts|)
  {
    hide NeverLoses, NeverOutlives, StateAt, StreakAt, Prompt, Recorded, CountAt, Running;
    forall j | 0 <= j <= |acts| ensures IsStreak(cfg, s0, acts, k, j) { PromptIsRecorded(cfg, s0, acts, k, j); }
    CounterIsStreak(cfg, s0, acts, k, |acts|);
  }

  // ---- what the checks decide ----

  lemma RateCheck(cfg: Config, s: Sys, a: Action)
    requires Commands(s, a) && s.pcs[a.id].SendRate? && s.reqs[a.id].SendOTP?
    ensures Exec(cfg, s, a).pcs[a.id] ==
            if CountAt(s.w.store, Rate(s.reqs[a.id].email), s.w.now) < cfg.otpRateMaxPerHour then SendSave(s.pcs[a.id].hash)
            else Done(TooManyRequests)
  {
    Dispatch(cfg, s.w, s.reqs[a.id], s.pcs[a.id], a.published);
    hide StepWith;
  }

  /**
   A signup that reaches the rate check while the running streak of its email is at the limit
   is refused, in every run up to there that never lost a count.
   */
  lemma SendRefusedWhenFull(cfg: Config, s0: Sys, acts: seq<Action>, n: nat)
    requires n < |acts| && Initial(s0)
    requires var s := StateAt(cfg, s0, acts, n);
             && Commands(s, acts[n]) && s.reqs[acts[n].id].SendOTP? && s.pcs[acts[n].id].SendRate?
             && NeverLoses(cfg, s0, acts, Rate(s.reqs[acts[n].id].email), n)
             && Running(StreakAt(cfg, s0, acts, Rate(s.reqs[acts[n].id].email), n), s.w.now) >= cfg.otpRateMaxPerHour
    ensures StateAt(cfg, s0, acts, n + 1).pcs[acts[n].id] == Done(TooManyRequests)
  {
    hide StateAt, Exec, StreakAt, NeverLoses, Running, Fits;
    var s := StateAt(cfg, s0, acts, n);
    CountsNoLessExactly(cfg, s0, acts, Rate(s.reqs[acts[n].id].email), n);
    assert NoLessAt(cfg, s0, acts, Rate(s.reqs[acts[n].id].email), n);
    RateCheck(cfg, s, acts[n]);
    StateAtNext(cfg, s0, acts, n);
  }

  /**
   A signup that reaches the rate check passes it exactly when the running streak of its email
   is below the limit, in every run up to there whose counter was the streak.
   */
  lemma SendRefusedExactly(cfg: Config, s0: Sys, acts: seq<Action>, n: nat)
    requires n < |acts| && Initial(s0)
    requires var s := StateAt(cfg, s0, acts, n);
             && Commands(s, acts[n]) && s.reqs[acts[n].id].SendOTP? && s.pcs[acts[n].id].SendRate?
             && NeverLoses(cfg, s0, acts, Rate(s.reqs[acts[n].id].email), n)
             && NeverOutlives(cfg, s0, acts, Rate(s.reqs[acts[n].id].email), n)
    ensures var s, id := StateAt(cfg, s0, acts, n), acts[n].id;
            var c := StreakAt(cfg, s0, acts, Rate(s.reqs[id].email), n);
            StateAt(cfg, s0, acts, n + 1).pcs[id] ==
              if Running(c, s.w.now) < cfg.otpRateMaxPerHour then SendSave(s.pcs[id].hash) else Done(TooManyRequests)
  {
    hide StateAt, Exec, StreakAt, NeverLoses, NeverOutlives, Running, Fits;
    var s := StateAt(cfg, s0, acts, n);
    CounterIsStreak(cfg, s0, acts, Rate(s.reqs[acts[n].id].email), n);
    assert IsStreak(cfg, s0, acts, Rate(s.reqs[acts[n].id].email), n);
    RateCheck(cfg, s, acts[n]);
    StateAtNext(cfg, s0, acts, n);
  }

  lemma AttemptsCheck(cfg: Config, s: Sys, a: Action)
    requires Commands(s, a) && s.pcs[a.id].VerifyAttempts? && s.reqs[a.id].VerifyOTP?
    ensures var data := s.pcs[a.id].data;
            Exec(cfg, s, a).pcs[a.id] ==
              if CountAt(s.w.store, Attempts(data.meta.email), s.w.now) >= cfg.otpMaxVerifyAttempts then Done(OtpRejected)
              else if data.hashedOtp == hmacFor(cfg.otpHmacSecret, data.meta.email, s.reqs[a.id].code) then VerifyConsume(data.meta)
              else VerifyCount(data.meta)
  {
    Dispatch(cfg, s.w, s.reqs[a.id], s.pcs[a.id], a.published);
    hide StepWith, hmacFor;
  }

  /** The counter that a verification past its session read checks next. */
  function AttemptsOf(s: Sys, a: Action): Key
    requires a.Advance? && a.id in s.pcs && s.pcs[a.id].VerifyAttempts?
  {
    Attempts(s.pcs[a.id].data.meta.email)
  }

  ghost predicate ChecksAttempts(s: Sys, a: Action) {
    Commands(s, a) && s.reqs[a.id].VerifyOTP? && s.pcs[a.id].VerifyAttempts?
  }

  /**
   A verification that checks its attempts while the running streak of wrong codes is at the
   maximum is rejected, in every run up to there that never lost a count.
   */
  lemma VerifyRejectedWhenFull(cfg: Config, s0: Sys, acts: seq<Action>, n: nat)
    requires n < |acts| && Initial(s0) && ChecksAttempts(StateAt(cfg, s0, acts, n), acts[n])
    requires var s := StateAt(cfg, s0, acts, n);
             var k := AttemptsOf(s, acts[n]);
             && NeverLoses(cfg, s0, acts, k, n)
             && Running(StreakAt(cfg, s0, acts, k, n), s.w.now) >= cfg.otpMaxVerifyAttempts
    ensures StateAt(cfg, s0, acts, n + 1).pcs[acts[n].id] == Done(OtpRejected)
  {
    hide StateAt, Exec, StreakAt, NeverLoses, Running, Fits;
    var s := StateAt(cfg, s0, acts, n);
    CountsNoLessExactly(cfg, s0, acts, AttemptsOf(s, acts[n]), n);
    assert NoLessAt(cfg, s0, acts, AttemptsOf(s, acts[n]), n);
    AttemptsCheck(cfg, s, acts[n]);
    StateAtNext(cfg, s0, acts, n);
  }

  /**
   A verification that has read its session goes on to consume it exactly when its code is
   right and the running streak of wrong codes for that email is below the maximum, in every
   run up to there whose counter was the streak.
   */
  lemma VerifyAcceptsExactly(cfg: Config, s0: Sys, acts: seq<Action>, n: nat)
    requires n < |acts| && Initial(s0) && ChecksAttempts(StateAt(cfg, s0, acts, n), acts[n])
    requires NeverLoses(cfg, s0, acts, AttemptsOf(StateAt(cfg, s0, acts, n), acts[n]), n)
    requires NeverOutlives(cfg, s0, acts, AttemptsOf(StateAt(cfg, s0, acts, n), acts[n]), n)
    ensures var s, id := StateAt(cfg, s0, acts, n), acts[n].id;
            var data := s.pcs[id].data;
            var c := StreakAt(cfg, s0, acts, Attempts(data.meta.email), n);
            StateAt(cfg, s0, acts, n + 1).pcs[id] ==
              if Running(c, s.w.now) >= cfg.otpMaxVerifyAttempts then Done(OtpRejected)
              else if data.hashedOtp == hmacFor(cfg.otpHmacSecret, data.meta.email, s.reqs[id].code) then VerifyConsume(data.meta)
              else VerifyCount(data.meta)
  {
    hide StateAt, Exec, StreakAt, NeverLoses, NeverOutlives, Running, Fits, hmacFor;
    var s := StateAt(cfg, s0, acts, n);
    CounterIsStreak(cfg, s0, acts, AttemptsOf(s, acts[n]), n);
    assert IsStreak(cfg, s0, acts, AttemptsOf(s, acts[n]), n);
    AttemptsCheck(cfg, s, acts[n]);
    StateAtNext(cfg, s0, acts, n);
  }

  /** An hour after the last counted wrong code the right code is accepted again, unless the counter outlived its streak. */
  lemma LockoutEnds(cfg: Config, s0: Sys, acts: seq<Action>, n: nat)
    requires n < |acts| && Initial(s0) && cfg.otpMaxVerifyAttempts > 0 && ChecksAttempts(StateAt(cfg, s0, acts, n), acts[n])
    requires var s := StateAt(cfg, s0, acts, n);
             var data := s.pcs[acts[n].id].data;
             && NeverOutlives(cfg, s0, acts, AttemptsOf(s, acts[n]), n)
             && data.hashedOtp == hmacFor(cfg.otpHmacSecret, data.meta.email, s.reqs[acts[n].id].code)
             && s.w.now - StreakAt(cfg, s0, acts, AttemptsOf(s, acts[n]), n).last >= HOUR
    ensures StateAt(cfg, s0, acts, n + 1).pcs[acts[n].id].VerifyConsume?
  {
    hide StateAt, Exec, StreakAt, NeverOutlives, Fits, hmacFor;
    var s := StateAt(cfg, s0, acts, n);
    CountsNoMoreExactly(cfg, s0, acts, AttemptsOf(s, acts[n]), n);
    assert NoMoreAt(cfg, s0, acts, AttemptsOf(s, acts[n]), n);
    AttemptsCheck(cfg, s, acts[n]);
    StateAtNext(cfg, s0, acts, n);
  }

  // ---- at most so many in a streak ----

  /** Without a DEL in between a streak that stays alive does not shrink. */
  lemma {:induction false} StreakGrows(cfg: Config, s0: Sys, acts: seq<Action>, k: Key, i: nat, j: nat)
    requires i <= j <= |acts| && IsCounterKey(k)
    requires forall m | i <= m < j :: OpOn(StateAt(cfg, s0, acts, m), acts[m], k) != Clear
    requires StreakAt(cfg, s0, acts, k, i).n > 0
    requires StateAt(cfg, s0, acts, j).w.now - StreakAt(cfg, s0, acts, k, i).last < HOUR
    requires StreakAt(cfg, s0, acts, k, i).last <= StateAt(cfg, s0, acts, i).w.now
    ensures var a, b := StreakAt(cfg, s0, acts, k, i), StreakAt(cfg, s0, acts, k, j);
            a.n <= b.n && a.last <= b.last <= StateAt(cfg, s0, acts, j).w.now
  {
    hide OpOn, Exec;
    if i < j {
      TimeGoesOn(cfg, StateAt(cfg, s0, acts, j - 1), acts[j - 1]);
      StreakGrows(cfg, s0, acts, k, i, j - 1);
    }
  }

  ghost predicate Bumps(cfg: Config, s0: Sys, acts: seq<Action>, k: Key, a: nat)
    requires IsCounterKey(k)
  {
    a < |acts| && OpOn(StateAt(cfg, s0, acts, a), acts[a], k) == Bump
  }

  /** Action b counts less than an hour after action a, with no DEL in between. */
  ghost predicate Follows(cfg: Config, s0: Sys, acts: seq<Action>, k: Key, a: nat, b: nat)
    requires IsCounterKey(k)
  {
    && a < b < |acts| && StateAt(cfg, s0, acts, b).w.now - StateAt(cfg, s0, acts, a).w.now < HOUR
    && forall m | a < m < b :: OpOn(StateAt(cfg, s0, acts, m), acts[m], k) != Clear
  }

  /** Actions that count at the key, each following the one before. */
  ghost predicate Chain(cfg: Config, s0: Sys, acts: seq<Action>, k: Key, idx: seq<nat>)
    requires IsCounterKey(k) && |idx| > 0
  {
    var last := |idx| - 1;
    && Bumps(cfg, s0, acts, k, idx[last])
    && (last > 0 ==> Chain(cfg, s0, acts, k, idx[..last]) && Follows(cfg, s0, acts, k, idx[last - 1], idx[last]))
  }

  lemma StreakAfterBump(cfg: Config, s0: Sys, acts: seq<Action>, k: Key, a: nat)
    requires IsCounterKey(k) && Bumps(cfg, s0, acts, k, a)
    ensures var c, now := StreakAt(cfg, s0, acts, k, a), StateAt(cfg, s0, acts, a).w.now;
            && StreakAt(cfg, s0, acts, k, a + 1) == Streak(Running(c, now) + 1, now)
            && StateAt(cfg, s0, acts, a + 1).w.now == now
  {
    TickOrNot(cfg, StateAt(cfg, s0, acts, a), acts[a], k);
    StateAtNext(cfg, s0, acts, a);
    hide OpOn, Exec, Running;
  }

  lemma StreakAfterFollowing(cfg: Config, s0: Sys, acts: seq<Action>, k: Key, a: nat, b: nat)
    requires IsCounterKey(k) && Bumps(cfg, s0, acts, k, a) && Bumps(cfg, s0, acts, k, b) && Follows(cfg, s0, acts, k, a, b)
    ensures StreakAt(cfg, s0, acts, k, a + 1).n + 1 <= StreakAt(cfg, s0, acts, k, b + 1).n
  {
    hide OpOn, StateAt;
    StreakAfterBump(cfg, s0, acts, k, a);
    StreakGrows(cfg, s0, acts, k, a + 1, b);
    StreakAfterBump(cfg, s0, acts, k, b);
  }

  lemma {:induction false} ChainIsInStreak(cfg: Config, s0: Sys, acts: seq<Action>, k: Key, idx: seq<nat>)
    requires IsCounterKey(k) && |idx| > 0 && Chain(cfg, s0, acts, k, idx)
    ensures var last := idx[|idx| - 1];
            var c := StreakAt(cfg, s0, acts, k, last + 1);
            |idx| <= c.n && Alive(c, StateAt(cfg, s0, acts, last + 1).w.now)
  {
    hide OpOn, StateAt, StreakAt, Bumps, Follows;
    StreakAfterBump(cfg, s0, acts, k, idx[|idx| - 1]);
    if |idx| > 1 {
      ChainIsInStreak(cfg, s0, acts, k, idx[..|idx| - 1]);
      StreakAfterFollowing(cfg, s0, acts, k, idx[|idx| - 2], idx[|idx| - 1]);
    }
  }

  /**
   The limits. In every run up to there that never lost a count, INCRs of one counter that
   follow each other with gaps under an hour and no DEL in between number at most its maximum
   plus n - 1, where n is how many calls for the email use the counter at once. With one at a
   time that is the maximum: OtpRateMaxPerHour codes, or OtpMaxVerifyAttempts wrong guesses,
   in a streak.
   */
  lemma StreakIsBounded(cfg: Config, s0: Sys, acts: seq<Action>, k: Key, idx: seq<nat>, n: nat)
    requires Initial(s0) && IsCounterKey(k) && |idx| > 0 && Chain(cfg, s0, acts, k, idx)
    requires NeverLoses(cfg, s0, acts, k, idx[|idx| - 1] + 1)
    requires O.AtMostOverlapping(cfg, s0, acts[..idx[|idx| - 1] + 1], k, n)
    ensures |idx| <= O.Maximum(cfg, k) + n - 1
  {
    hide Chain, StateAt, StreakAt, NeverLoses, Run, Initial, O.AtMostOverlapping, O.NonNegative;
    var end := idx[|idx| - 1] + 1;
    NothingYet(s0, k);
    ChainEnds(cfg, s0, acts, k, idx);
    CountsNoLessExactly(cfg, s0, acts, k, end);
    assert NoLessAt(cfg, s0, acts, k, end);
    ChainIsInStreak(cfg, s0, acts, k, idx);
    StateAtIsRun(cfg, s0, acts, end);
    O.OvershootIsBounded(cfg, s0, acts[..end], k, n);
  }

  lemma NothingYet(s0: Sys, k: Key)
    requires Initial(s0)
    ensures k !in s0.w.store
  {
  }

  lemma ChainEnds(cfg: Config, s0: Sys, acts: seq<Action>, k: Key, idx: seq<nat>)
    requires IsCounterKey(k) && |idx| > 0 && Chain(cfg, s0, acts, k, idx)
    ensures idx[|idx| - 1] < |acts|
  {
  }
}
