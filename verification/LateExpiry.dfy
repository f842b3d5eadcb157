/**
 Both ways in which a counter and its streak can part are real, for both counters: a call's
 EXPIRE that comes late can find the counter gone, or keep it beyond the end of its streak.
 */
module LateExpiry {
  import opened Wrappers
  import opened GoTime
  import opened Model
  import opened Keys
  import opened TimedStore
  import opened Service
  import opened Interleaved
  import opened Serial
  import opened OvershootReached
  import opened OtpLimits
  import KafkaProducer
  import Overshoot

  lemma {:induction false} Appended(cfg: Config, s0: Sys, acts: seq<Action>, a: Action, k: Key, i: nat)
    requires i <= |acts| && IsCounterKey(k)
    ensures StateAt(cfg, s0, acts + [a], i) == StateAt(cfg, s0, acts, i)
    ensures StreakAt(cfg, s0, acts + [a], k, i) == StreakAt(cfg, s0, acts, k, i)
  {
    hide Exec, OpOn, StreakAfter;
    if i > 0 { Appended(cfg, s0, acts, a, k, i - 1); }
  }

  lemma PromptGoesOn(cfg: Config, s0: Sys, acts: seq<Action>, a: Action, k: Key)
    requires IsCounterKey(k) && Prompt(cfg, s0, acts, k) && PromptAt(StateAt(cfg, s0, acts, |acts|), a, k)
    ensures Prompt(cfg, s0, acts + [a], k)
  {
    hide StateAt, PromptAt;
    forall n | 0 <= n < |acts + [a]| ensures PromptAt(StateAt(cfg, s0, acts + [a], n), (acts + [a])[n], k) {
      Appended(cfg, s0, acts, a, k, n);
      assert n < |acts| ==> PromptAt(StateAt(cfg, s0, acts, n), acts[n], k);
    }
  }

  lemma NoTicksIsPrompt(cfg: Config, s0: Sys, acts: seq<Action>, k: Key)
    requires NoTicks(acts)
    ensures Prompt(cfg, s0, acts, k)
  {
    hide StateAt;
    forall n | 0 <= n < |acts| ensures PromptAt(StateAt(cfg, s0, acts, n), acts[n], k) { assert acts[n] in acts; }
  }

  /** At its INCR, and at its EXPIRE. */
  function AtIncr(k: Key): Pc { if k.Rate? then SendIncr else VerifyCount(META) }

  function AtExpire(k: Key): Pc { if k.Rate? then SendExpire else VerifyExpire(META) }

  const GO := KafkaProducer.Delivered

  /** The foot of the ladder of a counter. */
  lemma Foot(cfg: Config, k: Key) returns (acts: seq<Action>, base: Sys, b: nat)
    requires IsLadderKey(k) && cfg.otpRateMaxPerHour >= 1
    ensures Initial(START) && NoTicks(acts) && Reaches(cfg, START, acts, 1, base, b, k, 0, Ladder(base, b, k, 0, 0), 0)
  {
    hide Reaches, Ladder, Run;
    RateFoot(cfg, 1);
    acts, base, b := [], START, 0;
    if k.Attempts? {
      acts := AttemptsFoot(cfg, 1);
      base, b := Run(cfg, START, acts), 1;
    }
  }

  /** n calls, one after the other, have counted. */
  lemma ClimbAlone(cfg: Config, k: Key, n: nat) returns (acts: seq<Action>, base: Sys, b: nat)
    requires IsLadderKey(k) && cfg.otpRateMaxPerHour >= 1 && n <= Overshoot.Maximum(cfg, k)
    ensures Initial(START) && NoTicks(acts) && Reaches(cfg, START, acts, 1, base, b, k, n, Ladder(base, b, k, n, n), n)
  {
    acts, base, b := Foot(cfg, k);
    hide *;
    for i := 0 to n
      invariant NoTicks(acts) && Reaches(cfg, START, acts, 1, base, b, k, i, Ladder(base, b, k, i, i), i)
    {
      acts := Raise(cfg, START, acts, 1, base, b, k, i, i);
      acts := CountOne(cfg, START, acts, 1, base, b, k, i, i + 1);
    }
  }

  lemma IncrIsNext(cfg: Config, k: Key, count: nat)
    requires IsLadderKey(k)
    ensures k.Rate? ==> OnTheWay(cfg, k, Checked(k), count) && NextPc(cfg, Checked(k)) == AtIncr(k) && !Counts(Checked(k))
    ensures !k.Rate? ==> Checked(k) == AtIncr(k)
  {
  }

  /** The next call of the ladder, past its check and at its INCR. */
  lemma NextAtIncr(cfg: Config, acts: seq<Action>, base: Sys, b: nat, k: Key, i: nat) returns (more: seq<Action>)
    requires IsLadderKey(k) && i < Overshoot.Maximum(cfg, k) && NoTicks(acts)
    requires Reaches(cfg, START, acts, 1, base, b, k, i, Ladder(base, b, k, i, i), i)
    ensures NoTicks(more)
    ensures Reaches(cfg, START, more, 1, base, b, k, i + 1, With(base, b, k, i, i + 1, b + i, AtIncr(k)), i)
  {
    hide *;
    IncrIsNext(cfg, k, i);
    more := Raise(cfg, START, acts, 1, base, b, k, i, i);
    BesideOf(cfg, START, more, 1, base, b, k, i + 1, Ladder(base, b, k, i, i + 1), i);
    WithChecked(base, b, k, i, i + 1, b + i);
    if k.Rate? {
      ReachMove(cfg, START, more, 1, base, b, k, i, i + 1, b + i, Checked(k), i);
      NoTicksSnoc(more, Advance(b + i, KafkaProducer.Delivered));
      more := more + [Advance(b + i, KafkaProducer.Delivered)];
    }
  }

  /** The counter's entry, who awaits an EXPIRE, and what call t may do next. */
  ghost predicate StandsAt(s: Sys, k: Key, n: nat, t: CallId, pc: Pc) {
    && k in s.w.store && s.w.store[k].value == Counter(n)
    && t in s.pcs && s.pcs[t] == pc && t in s.reqs && s.reqs[t] == RequestAt(k, t)
  }

  lemma LadderStands(cfg: Config, acts: seq<Action>, base: Sys, b: nat, k: Key, i: nat, pc: Pc, count: nat)
    requires Reaches(cfg, START, acts, 1, base, b, k, i + 1, With(base, b, k, i, i + 1, b + i, pc), count) && count > 0
    ensures var s := Run(cfg, START, acts);
            && s.w.now == 0 && StandsAt(s, k, count, b + i, pc)
            && (s.w.store[k].deadline.Some? ==> s.w.store[k].deadline.value == HOUR)
            && (pc == AtIncr(k) ==> !AwaitsExpire(s, k))
  {
    hide Run, Overshoot.AtMostOverlapping;
  }

  lemma NextState(cfg: Config, acts: seq<Action>, a: Action, k: Key)
    requires IsCounterKey(k)
    ensures var s := StateAt(cfg, START, acts, |acts|);
            && StateAt(cfg, START, acts + [a], |acts + [a]|) == Exec(cfg, s, a)
            && StreakAt(cfg, START, acts + [a], k, |acts + [a]|) ==
                 StreakAfter(StreakAt(cfg, START, acts, k, |acts|), OpOn(s, a, k), s.w.now)
  {
    Appended(cfg, START, acts, a, k, |acts|);
    hide Exec, OpOn, StreakAfter;
  }

  lemma TickKeeps(cfg: Config, s: Sys, d: nat, k: Key)
    requires IsCounterKey(k)
    ensures Exec(cfg, s, Tick(d)) == s.(w := s.w.(now := s.w.now + d)) && OpOn(s, Tick(d), k) == Keep
    ensures AwaitsExpire(Exec(cfg, s, Tick(d)), k) == AwaitsExpire(s, k)
  {
  }

  /** What a run without ticks has recorded. */
  lemma RecordedNow(cfg: Config, acts: seq<Action>, k: Key)
    requires IsCounterKey(k) && Prompt(cfg, START, acts, k) && k !in START.w.store
    ensures Recorded(StateAt(cfg, START, acts, |acts|), k, StreakAt(cfg, START, acts, k, |acts|))
  {
    hide Recorded, StateAt, StreakAt, Prompt, CountAt, Running;
    PromptIsRecorded(cfg, START, acts, k, |acts|);
  }

  lemma RunIsState(cfg: Config, acts: seq<Action>)
    ensures StateAt(cfg, START, acts, |acts|) == Run(cfg, START, acts)
  {
    hide Run, StateAt;
    StateAtIsRun(cfg, START, acts, |acts|);
    assert acts[..|acts|] == acts;
  }

  // ---- a lost count ----

  /** An INCR on a counter that is about to expire. */
  lemma LateIncr(cfg: Config, s: Sys, k: Key, n: nat, t: CallId)
    requires IsLadderKey(k) && StandsAt(s, k, n, t, AtIncr(k)) && s.w.now == HOUR - 1 && s.w.store[k].deadline == Some(HOUR)
    ensures var u := Exec(cfg, s, Advance(t, GO));
            && k in u.w.store && u.w.store[k] == Entry(Counter(n + 1), Some(HOUR))
            && AwaitsExpire(u, k) && u.w.now == s.w.now
  {
    IncrBumps(cfg, s, k, n, t);
    ActionOnCounter(cfg, s, Advance(t, GO), k);
    AwaitsChange(cfg, s, Advance(t, GO), k);
    TimeGoesOn(cfg, s, Advance(t, GO));
    hide Exec, OpOn, AwaitsExpire;
  }

  lemma IncrBumps(cfg: Config, s: Sys, k: Key, n: nat, t: CallId)
    requires IsLadderKey(k) && StandsAt(s, k, n, t, AtIncr(k))
    ensures OpOn(s, Advance(t, GO), k) == Bump
  {
  }

  lemma StreakIsRecorded(s: Sys, k: Key, n: nat, c: Streak)
    requires Recorded(s, k, c) && k in s.w.store && s.w.store[k].value == Counter(n) && AwaitsExpire(s, k)
    ensures c == Streak(n, s.w.now)
  {
    hide AwaitsExpire;
  }

  lemma RecordedAtZero(s: Sys, k: Key, n: nat, c: Streak)
    requires Recorded(s, k, c) && k in s.w.store && s.w.store[k].value == Counter(n) && s.w.now == 0
    requires s.w.store[k].deadline.Some? ==> s.w.store[k].deadline.value == HOUR
    ensures AwaitsExpire(s, k) ==> c == Streak(n, 0)
    ensures !AwaitsExpire(s, k) ==> c == Streak(n, 0) && s.w.store[k].deadline == Some(HOUR)
  {
    hide AwaitsExpire;
  }

  /**
   For both counters and every maximum of at least two some run reads the counter as 0 while a
   streak of the maximum is running: the last INCR was executed and its EXPIRE not yet.
   */
  lemma LateExpireLosesTheCount(cfg: Config, k: Key) returns (acts: seq<Action>)
    requires IsLadderKey(k) && Overshoot.Maximum(cfg, k) >= 2 && cfg.otpRateMaxPerHour >= 1
    ensures Initial(START)
    ensures var s, c := StateAt(cfg, START, acts, |acts|), StreakAt(cfg, START, acts, k, |acts|);
            Running(c, s.w.now) == Overshoot.Maximum(cfg, k) && CountAt(s.w.store, k, s.w.now) == 0 && AwaitsExpire(s, k)
  {
    hide Run, Reaches, Prompt, Recorded, StateAt, Exec, AwaitsExpire, OpOn, Initial, Ladder, With, StreakAfter;
    var n := Overshoot.Maximum(cfg, k) - 1;
    var a, base, b := ClimbAlone(cfg, k, n);
    a := NextAtIncr(cfg, a, base, b, k, n);
    LadderStands(cfg, a, base, b, k, n, AtIncr(k), n);
    NoTicksIsPrompt(cfg, START, a, k);
    var t := b + n;
    var c := Wait(cfg, a, k, n, t);
    LateIncr(cfg, StateAt(cfg, START, c, |c|), k, n, t);
    PromptGoesOn(cfg, START, c, Advance(t, GO), k);
    NextState(cfg, c, Advance(t, GO), k);
    var d := c + [Advance(t, GO)];
    RecordedNow(cfg, d, k);
    StreakIsRecorded(StateAt(cfg, START, d, |d|), k, n + 1, StreakAt(cfg, START, d, k, |d|));
    acts := d + [Tick(1)];
    NextState(cfg, d, Tick(1), k);
    TickKeeps(cfg, StateAt(cfg, START, d, |d|), 1, k);
    KeepsStreak(StreakAt(cfg, START, d, k, |d|), StateAt(cfg, START, d, |d|).w.now);
  }

  lemma KeepsStreak(c: Streak, now: int)
    ensures StreakAfter(c, Keep, now) == c && StreakAfter(c, Renew, now) == c
  {
  }

  /** Nothing happens until a nanosecond before the counter expires. */
  lemma Wait(cfg: Config, a: seq<Action>, k: Key, n: nat, t: CallId) returns (b: seq<Action>)
    requires IsLadderKey(k) && Prompt(cfg, START, a, k)
    requires var s := Run(cfg, START, a);
             && s.w.now == 0 && StandsAt(s, k, n, t, AtIncr(k)) && !AwaitsExpire(s, k)
             && (s.w.store[k].deadline.Some? ==> s.w.store[k].deadline.value == HOUR)
    ensures Prompt(cfg, START, b, k)
    ensures var s := StateAt(cfg, START, b, |b|);
            s.w.now == HOUR - 1 && StandsAt(s, k, n, t, AtIncr(k)) && s.w.store[k].deadline == Some(HOUR)
  {
    hide Run, Prompt, StateAt, Exec, AwaitsExpire, OpOn, Recorded, AtIncr;
    RunIsState(cfg, a);
    RecordedNow(cfg, a, k);
    RecordedAtZero(StateAt(cfg, START, a, |a|), k, n, StreakAt(cfg, START, a, k, |a|));
    b := a + [Tick(HOUR - 1)];
    PromptGoesOn(cfg, START, a, Tick(HOUR - 1), k);
    NextState(cfg, a, Tick(HOUR - 1), k);
    TickKeeps(cfg, StateAt(cfg, START, a, |a|), HOUR - 1, k);
  }

  // ---- a counter that outlives its streak ----

  lemma LateRenewal(cfg: Config, s: Sys, k: Key, t: CallId)
    requires IsLadderKey(k) && StandsAt(s, k, 1, t, AtExpire(k)) && s.w.now == 10 * MINUTE
    requires s.w.store[k].deadline.Some? ==> s.w.store[k].deadline.value == HOUR
    ensures var u := Exec(cfg, s, Advance(t, GO));
            && k in u.w.store && u.w.store[k] == Entry(Counter(1), Some(70 * MINUTE)) && u.w.now == s.w.now
            && OpOn(s, Advance(t, GO), k) == Renew
  {
    ExpireRenews(cfg, s, k, t);
    ActionOnCounter(cfg, s, Advance(t, GO), k);
    TimeGoesOn(cfg, s, Advance(t, GO));
    hide Exec, OpOn;
  }

  lemma ExpireRenews(cfg: Config, s: Sys, k: Key, t: CallId)
    requires IsLadderKey(k) && StandsAt(s, k, 1, t, AtExpire(k))
    ensures OpOn(s, Advance(t, GO), k) == Renew
  {
  }

  lemma ExpireAwaits(s: Sys, k: Key, t: CallId)
    requires IsLadderKey(k) && StandsAt(s, k, 1, t, AtExpire(k))
    ensures AwaitsExpire(s, k)
  {
    assert t in s.pcs && t in s.reqs && Overshoot.WillExpire(s.reqs[t], s.pcs[t], k);
  }

  /** The first call of the ladder has counted and awaits its EXPIRE. */
  lemma Counted(cfg: Config, acts: seq<Action>, base: Sys, b: nat, k: Key) returns (more: seq<Action>)
    requires IsLadderKey(k) && NoTicks(acts)
    requires Reaches(cfg, START, acts, 1, base, b, k, 1, With(base, b, k, 0, 1, b, AtIncr(k)), 0)
    ensures NoTicks(more)
    ensures var s := Run(cfg, START, more);
            && s.w.now == 0 && StandsAt(s, k, 1, b, AtExpire(k))
            && (s.w.store[k].deadline.Some? ==> s.w.store[k].deadline.value == HOUR)
  {
    hide Reaches, With, Run;
    ReachMove(cfg, START, acts, 1, base, b, k, 0, 1, b, AtIncr(k), 0);
    NoTicksSnoc(acts, Advance(b, GO));
    more := acts + [Advance(b, GO)];
    LadderStands(cfg, more, base, b, k, 0, AtExpire(k), 1);
  }

  /** A run at whose end the first call has counted and awaits its EXPIRE. */
  lemma FirstCounted(cfg: Config, k: Key) returns (a: seq<Action>, b: nat)
    requires IsLadderKey(k) && Overshoot.Maximum(cfg, k) >= 1 && cfg.otpRateMaxPerHour >= 1
    ensures Initial(START) && StreakAt(cfg, START, a, k, |a|) == Streak(1, 0)
    ensures var s := StateAt(cfg, START, a, |a|);
            && s.w.now == 0 && StandsAt(s, k, 1, b, AtExpire(k))
            && (s.w.store[k].deadline.Some? ==> s.w.store[k].deadline.value == HOUR)
  {
    hide Run, Reaches, Prompt, Recorded, StateAt, Exec, AwaitsExpire, Initial, Ladder, With;
    var base;
    a, base, b := Foot(cfg, k);
    a := NextAtIncr(cfg, a, base, b, k, 0);
    a := Counted(cfg, a, base, b, k);
    RunIsState(cfg, a);
    NoTicksIsPrompt(cfg, START, a, k);
    RecordedNow(cfg, a, k);
    ExpireAwaits(StateAt(cfg, START, a, |a|), k, b);
    RecordedAtZero(StateAt(cfg, START, a, |a|), k, 1, StreakAt(cfg, START, a, k, |a|));
  }

  /**
   For both counters and every maximum of at least one some run reads the counter as 1 an hour
   and five minutes after the last INCR, when no streak is running.
   */
  lemma LateExpireOutlivesTheStreak(cfg: Config, k: Key) returns (acts: seq<Action>)
    requires IsLadderKey(k) && Overshoot.Maximum(cfg, k) >= 1 && cfg.otpRateMaxPerHour >= 1
    ensures Initial(START)
    ensures var s, c := StateAt(cfg, START, acts, |acts|), StreakAt(cfg, START, acts, k, |acts|);
            Running(c, s.w.now) == 0 && CountAt(s.w.store, k, s.w.now) == 1 && s.w.now == c.last + 65 * MINUTE
  {
    hide StateAt, Exec, AwaitsExpire, OpOn, Initial, StreakAfter;
    var a, b := FirstCounted(cfg, k);
    var c := a + [Tick(10 * MINUTE)];
    NextState(cfg, a, Tick(10 * MINUTE), k);
    TickKeeps(cfg, StateAt(cfg, START, a, |a|), 10 * MINUTE, k);
    LateRenewal(cfg, StateAt(cfg, START, c, |c|), k, b);
    var d := c + [Advance(b, GO)];
    NextState(cfg, c, Advance(b, GO), k);
    acts := d + [Tick(55 * MINUTE)];
    NextState(cfg, d, Tick(55 * MINUTE), k);
    TickKeeps(cfg, StateAt(cfg, START, d, |d|), 55 * MINUTE, k);
    KeepsStreak(Streak(1, 0), 0);
    KeepsStreak(Streak(1, 0), 10 * MINUTE);
  }
}
