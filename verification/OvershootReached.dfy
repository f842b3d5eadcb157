/**
 The bound of Overshoot is exact for both counters: for every maximum and every number of
 overlapping calls some run makes the counter pass its maximum by that number less one. The
 documented limits therefore hold only when calls for one email do not overlap.
 */
module OvershootReached {
  import opened Wrappers
  import opened GoTime
  import opened Model
  import opened Keys
  import opened TimedStore
  import opened Tables
  import opened Service
  import opened Interleaved
  import opened Overshoot
  import opened Serial
  import Atomic
  import KafkaProducer

  const EMAIL := "a@b"
  const HASH := Bcrypt("p")
  const META := Meta("f", "l", EMAIL, HASH)

  /** The t-th signup; its session id is a string of length t. */
  function Signup(t: nat): Request {
    SendOTP("f", "l", EMAIL, "p", "p", "0", seq(t, _ => 'x'), NO_FAULTS, KafkaProducer.Delivered)
  }

  /** A wrong code for the session of signup 1. */
  function Guess(): Request { VerifyOTP("1", "x", "") }

  function DataFor(cfg: Config): SessionData { SessionData(hmacFor(cfg.otpHmacSecret, EMAIL, "0"), META) }

  // ---- one call of the ladder ----

  /** The calls that count at k. */
  function RequestAt(k: Key, t: nat): Request { if k.Rate? then Signup(t) else Guess() }

  function First(k: Key): Pc { if k.Rate? then SendLookup else VerifySession }

  /** Past the check and not counted yet. */
  function Checked(k: Key): Pc { if k.Rate? then SendSave(HASH) else VerifyCount(META) }

  /** Counted, with the expiry renewed. */
  function Counted(k: Key): Pc { if k.Rate? then SendPublish else Done(OtpRejected) }

  function NextPc(cfg: Config, pc: Pc): Pc {
    match pc
    case SendLookup => SendRate(HASH)
    case SendRate(_) => SendSave(HASH)
    case SendSave(_) => SendIncr
    case SendIncr => SendExpire
    case SendExpire => SendPublish
    case VerifySession => VerifyAttempts(DataFor(cfg))
    case VerifyAttempts(_) => VerifyCount(META)
    case VerifyCount(_) => VerifyExpire(META)
    case _ => Done(OtpRejected)
  }

  /** The command of a ladder call goes on, given the counter. */
  predicate OnTheWay(cfg: Config, k: Key, pc: Pc, count: nat) {
    if k.Rate? then
      pc == SendLookup || pc == SendSave(HASH) || pc == SendIncr || pc == SendExpire ||
      (pc == SendRate(HASH) && count < cfg.otpRateMaxPerHour)
    else
      pc == VerifySession || pc == VerifyCount(META) || pc == VerifyExpire(META) ||
      (pc == VerifyAttempts(DataFor(cfg)) && count < cfg.otpMaxVerifyAttempts)
  }

  predicate Counts(pc: Pc) { pc.SendIncr? || pc.VerifyCount? }

  /** Time stands at 0, the counter has this value, and guesses find their session. */
  ghost predicate StoreShape(cfg: Config, w: World, k: Key, count: nat) {
    && w.now == 0
    && (if count == 0 then k !in w.store
        else k in w.store && w.store[k].value == Counter(count) &&
             (w.store[k].deadline.Some? ==> w.store[k].deadline.value == HOUR))
    && (k.Rate? ==> w.db.users == map[])
    && (k.Attempts? ==> Get(w.store, Session("x"), 0) == Some(OtpSession(DataFor(cfg))))
  }

  predicate IsLadderKey(k: Key) { k == Rate(EMAIL) || k == Attempts(EMAIL) }

  lemma RateCommand(cfg: Config, w: World, t: nat, pc: Pc, count: nat)
    requires StoreShape(cfg, w, Rate(EMAIL), count) && OnTheWay(cfg, Rate(EMAIL), pc, count)
    ensures var (w', pc') := StepSend(cfg, w, Signup(t), pc);
            pc' == NextPc(cfg, pc) && StoreShape(cfg, w', Rate(EMAIL), if Counts(pc) then count + 1 else count)
  {
  }

  lemma AttemptsCommand(cfg: Config, w: World, pc: Pc, count: nat)
    requires StoreShape(cfg, w, Attempts(EMAIL), count) && OnTheWay(cfg, Attempts(EMAIL), pc, count)
    ensures var (w', pc') := StepVerify(cfg, w, Guess(), pc);
            pc' == NextPc(cfg, pc) && StoreShape(cfg, w', Attempts(EMAIL), if Counts(pc) then count + 1 else count)
  {
    if pc.VerifyAttempts? { MacAcceptsOnlyItsCode(cfg.otpHmacSecret, EMAIL, "0", "1"); assert "0"[0] != "1"[0]; }
    hide hmacFor;
  }

  lemma OneCommand(cfg: Config, w: World, k: Key, t: nat, pc: Pc, count: nat)
    requires IsLadderKey(k) && StoreShape(cfg, w, k, count) && OnTheWay(cfg, k, pc, count)
    ensures Fits(RequestAt(k, t), pc) && !pc.Done?
    ensures var (w', pc') := StepWith(cfg, w, RequestAt(k, t), pc, KafkaProducer.Delivered);
            pc' == NextPc(cfg, pc) && StoreShape(cfg, w', k, if Counts(pc) then count + 1 else count)
  {
    assert Fits(RequestAt(k, t), pc);
    hide StepWith, StoreShape, NextPc, StepSend, StepVerify, StepSignIn, StepRotate, StepCache;
    Dispatch(cfg, w, RequestAt(k, t), pc, KafkaProducer.Delivered);
    if k.Rate? { RateCommand(cfg, w, t, pc, count); } else { AttemptsCommand(cfg, w, pc, count); }
  }

  // ---- the ladder ----

  /** What stands beside the ladder: calls below b, none of which uses the counter. */
  ghost predicate Beside(base: Sys, b: nat, k: Key) {
    && IsLadderKey(k) && base.pcs.Keys == base.reqs.Keys
    && (forall t | t in base.pcs :: t < b && !UsesCounter(base.reqs[t], base.pcs[t], k))
    && (k.Rate? ==> base.reqs == map[])
  }

  function Rung(b: nat, k: Key, i: nat, t: nat): Pc { if t < b + i then Counted(k) else Checked(k) }

  function Requests(base: Sys, b: nat, k: Key, j: nat): map<CallId, Request> {
    base.reqs + (map t: CallId | b <= t < b + j :: RequestAt(k, t))
  }

  /** The first i ladder calls have counted, the others have passed the check. */
  function Ladder(base: Sys, b: nat, k: Key, i: nat, j: nat): map<CallId, Pc> {
    base.pcs + (map t: CallId | b <= t < b + j :: Rung(b, k, i, t))
  }

  ghost predicate Shape(cfg: Config, s: Sys, base: Sys, b: nat, k: Key, j: nat, pcs: map<CallId, Pc>, count: nat) {
    s.reqs == Requests(base, b, k, j) && s.pcs == pcs && StoreShape(cfg, s.w, k, count)
  }

  lemma OneAdvance(cfg: Config, s: Sys, base: Sys, b: nat, k: Key, j: nat, pcs: map<CallId, Pc>, count: nat, t: CallId)
    requires Beside(base, b, k) && Shape(cfg, s, base, b, k, j, pcs, count)
    requires b <= t < b + j && t in pcs && OnTheWay(cfg, k, pcs[t], count)
    ensures Shape(cfg, Exec(cfg, s, Advance(t, KafkaProducer.Delivered)), base, b, k, j, pcs[t := NextPc(cfg, pcs[t])],
                  if Counts(pcs[t]) then count + 1 else count)
  {
    OneCommand(cfg, s.w, k, t, pcs[t], count);
    hide StepWith, StoreShape, NextPc, Fits, OnTheWay;
  }

  lemma OneBegin(cfg: Config, s: Sys, base: Sys, b: nat, k: Key, i: nat, j: nat, count: nat)
    requires Beside(base, b, k) && Shape(cfg, s, base, b, k, j, Ladder(base, b, k, i, j), count)
    ensures Shape(cfg, Exec(cfg, s, Begin(b + j, RequestAt(k, b + j))), base, b, k, j + 1,
                  Ladder(base, b, k, i, j)[b + j := First(k)], count)
  {
    hide StoreShape, Start, UsesCounter, FreshRequest, First, RequestAt, Rung, IsLadderKey;
    NextIsFresh(cfg, s, base, b, k, i, j, count);
    StartsFirst(k, b + j);
    MoreRequests(base, b, k, j);
    hide Requests, Ladder;
  }

  lemma MoreRequests(base: Sys, b: nat, k: Key, j: nat)
    requires Beside(base, b, k)
    ensures Requests(base, b, k, j + 1) == Requests(base, b, k, j)[b + j := RequestAt(k, b + j)]
  {
    hide UsesCounter, RequestAt, IsLadderKey;
  }

  lemma StartsFirst(k: Key, t: nat)
    ensures Start(RequestAt(k, t)) == First(k)
  {
  }

  lemma NextIsFresh(cfg: Config, s: Sys, base: Sys, b: nat, k: Key, i: nat, j: nat, count: nat)
    requires Beside(base, b, k) && Shape(cfg, s, base, b, k, j, Ladder(base, b, k, i, j), count)
    ensures b + j !in s.reqs && b + j !in s.pcs && FreshRequest(s, RequestAt(k, b + j))
  {
    hide StoreShape, UsesCounter;
    if k.Rate? {
      assert forall t | t in s.reqs :: |s.reqs[t].sid| == t;
      assert |Signup(b + j).sid| == b + j;
    }
  }

  function Interval(lo: nat, hi: nat): (ts: set<CallId>)
    requires lo <= hi
    ensures |ts| == hi - lo && forall t :: t in ts <==> lo <= t < hi
    decreases hi
  {
    if lo == hi then {} else Interval(lo, hi - 1) + {hi - 1}
  }

  /** A ladder call at this point may use the counter. */
  predicate Busy(k: Key, pc: Pc) { pc != Counted(k) && pc != First(k) }

  lemma BusyOnLadder(cfg: Config, s: Sys, base: Sys, b: nat, k: Key, j: nat, pcs: map<CallId, Pc>, count: nat, t: CallId)
    requires Beside(base, b, k) && Shape(cfg, s, base, b, k, j, pcs, count) && t in Overlapping(s, k)
    requires t in base.pcs ==> t in pcs && pcs[t] == base.pcs[t]
    ensures t in pcs && t !in base.pcs && Busy(k, pcs[t])
  {
    hide StoreShape;
  }

  lemma OverlapBound(cfg: Config, s: Sys, base: Sys, b: nat, k: Key, j: nat, pcs: map<CallId, Pc>, count: nat, lo: nat, hi: nat)
    requires Beside(base, b, k) && Shape(cfg, s, base, b, k, j, pcs, count) && lo <= hi
    requires forall t | t in base.pcs :: t in pcs && pcs[t] == base.pcs[t]
    requires forall t | t in pcs && t !in base.pcs && Busy(k, pcs[t]) :: lo <= t < hi
    ensures |Overlapping(s, k)| <= hi - lo
  {
    hide StoreShape;
    forall t | t in Overlapping(s, k) ensures t in Interval(lo, hi) {
      BusyOnLadder(cfg, s, base, b, k, j, pcs, count, t);
    }
    SubsetSize(Overlapping(s, k), Interval(lo, hi));
  }

  lemma Extend(cfg: Config, s0: Sys, acts: seq<Action>, a: Action, k: Key, n: nat)
    requires AtMostOverlapping(cfg, s0, acts, k, n)
    requires |Overlapping(Exec(cfg, Run(cfg, s0, acts), a), k)| <= n
    ensures Run(cfg, s0, acts + [a]) == Exec(cfg, Run(cfg, s0, acts), a)
    ensures AtMostOverlapping(cfg, s0, acts + [a], k, n)
  {
    assert (acts + [a])[..|acts|] == acts;
    hide Exec, Overlapping;
  }

  /** A run with at most n overlapping calls to a ladder state. */
  ghost predicate Reaches(cfg: Config, s0: Sys, acts: seq<Action>, n: nat, base: Sys, b: nat, k: Key,
                          j: nat, pcs: map<CallId, Pc>, count: nat)
  {
    && Beside(base, b, k) && AtMostOverlapping(cfg, s0, acts, k, n)
    && Shape(cfg, Run(cfg, s0, acts), base, b, k, j, pcs, count)
    && forall t | t in base.pcs :: t in pcs && pcs[t] == base.pcs[t]
  }

  lemma ReachCommand(cfg: Config, s0: Sys, acts: seq<Action>, n: nat, base: Sys, b: nat, k: Key,
                     j: nat, pcs: map<CallId, Pc>, count: nat, t: CallId, lo: nat, hi: nat)
    requires Reaches(cfg, s0, acts, n, base, b, k, j, pcs, count)
    requires b <= t < b + j && t in pcs && OnTheWay(cfg, k, pcs[t], count)
    requires lo <= t < hi <= lo + n && forall u | u in pcs && u !in base.pcs && Busy(k, pcs[u]) :: lo <= u < hi
    ensures Reaches(cfg, s0, acts + [Advance(t, KafkaProducer.Delivered)], n, base, b, k, j,
                    pcs[t := NextPc(cfg, pcs[t])], if Counts(pcs[t]) then count + 1 else count)
  {
    hide Run, Exec, AtMostOverlapping, Shape, OnTheWay, NextPc, Overlapping;
    var a := Advance(t, KafkaProducer.Delivered);
    var s := Run(cfg, s0, acts);
    OneAdvance(cfg, s, base, b, k, j, pcs, count, t);
    OverlapBound(cfg, Exec(cfg, s, a), base, b, k, j, pcs[t := NextPc(cfg, pcs[t])],
                 if Counts(pcs[t]) then count + 1 else count, lo, hi);
    Extend(cfg, s0, acts, a, k, n);
  }

  /** The ladder with one of its uncounted calls elsewhere. */
  function With(base: Sys, b: nat, k: Key, i: nat, j: nat, t: CallId, pc: Pc): map<CallId, Pc> {
    Ladder(base, b, k, i, j)[t := pc]
  }

  lemma WithFacts(base: Sys, b: nat, k: Key, i: nat, j: nat, t: CallId, pc: Pc, pc': Pc)
    requires Beside(base, b, k) && b + i <= t < b + j
    ensures With(base, b, k, i, j, t, pc)[t := pc'] == With(base, b, k, i, j, t, pc')
    ensures t in With(base, b, k, i, j, t, pc) && With(base, b, k, i, j, t, pc)[t] == pc
    ensures forall u | u in With(base, b, k, i, j, t, pc) && u !in base.pcs && Busy(k, With(base, b, k, i, j, t, pc)[u]) ::
              b + i <= u < b + j
  {
    hide UsesCounter, Busy;
    forall u | u in With(base, b, k, i, j, t, pc) && u !in base.pcs && u < b + i
      ensures With(base, b, k, i, j, t, pc)[u] == Counted(k) {}
    CountedIsIdle(k);
  }

  lemma CountedIsIdle(k: Key)
    ensures !Busy(k, Counted(k))
  {
  }

  lemma WithChecked(base: Sys, b: nat, k: Key, i: nat, j: nat, t: CallId)
    requires Beside(base, b, k) && b + i <= t < b + j
    ensures With(base, b, k, i, j, t, Checked(k)) == Ladder(base, b, k, i, j)
  {
    hide UsesCounter;
  }

  lemma WithCounted(base: Sys, b: nat, k: Key, i: nat, j: nat)
    requires Beside(base, b, k) && i < j
    ensures With(base, b, k, i, j, b + i, Counted(k)) == Ladder(base, b, k, i + 1, j)
  {
    hide UsesCounter;
  }

  lemma ReachMove(cfg: Config, s0: Sys, acts: seq<Action>, n: nat, base: Sys, b: nat, k: Key,
                  i: nat, j: nat, t: CallId, pc: Pc, count: nat)
    requires b + i <= t < b + j && j <= i + n && OnTheWay(cfg, k, pc, count)
    requires Reaches(cfg, s0, acts, n, base, b, k, j, With(base, b, k, i, j, t, pc), count)
    ensures Reaches(cfg, s0, acts + [Advance(t, KafkaProducer.Delivered)], n, base, b, k, j,
                    With(base, b, k, i, j, t, NextPc(cfg, pc)), if Counts(pc) then count + 1 else count)
  {
    BesideOf(cfg, s0, acts, n, base, b, k, j, With(base, b, k, i, j, t, pc), count);
    hide Reaches, OnTheWay, NextPc, With, Beside, Busy;
    WithFacts(base, b, k, i, j, t, pc, NextPc(cfg, pc));
    ReachCommand(cfg, s0, acts, n, base, b, k, j, With(base, b, k, i, j, t, pc), count, t, b + i, b + j);
  }

  lemma NewCall(base: Sys, b: nat, k: Key, i: nat, j: nat)
    requires Beside(base, b, k) && i <= j
    ensures Ladder(base, b, k, i, j)[b + j := First(k)] == With(base, b, k, i, j + 1, b + j, First(k))
  {
    hide UsesCounter;
  }

  lemma FirstIsIdle(base: Sys, b: nat, k: Key, i: nat, j: nat)
    requires Beside(base, b, k) && i <= j
    ensures forall u | u in With(base, b, k, i, j + 1, b + j, First(k)) && u !in base.pcs &&
                       Busy(k, With(base, b, k, i, j + 1, b + j, First(k))[u]) :: b + i <= u < b + j
  {
    hide UsesCounter;
  }

  lemma ReachBegin(cfg: Config, s0: Sys, acts: seq<Action>, n: nat, base: Sys, b: nat, k: Key, i: nat, j: nat)
    requires i <= j < i + n && Reaches(cfg, s0, acts, n, base, b, k, j, Ladder(base, b, k, i, j), i)
    ensures Reaches(cfg, s0, acts + [Begin(b + j, RequestAt(k, b + j))], n, base, b, k, j + 1,
                    With(base, b, k, i, j + 1, b + j, First(k)), i)
  {
    hide Run, Exec, AtMostOverlapping, Shape, Overlapping, With, Busy, Ladder, UsesCounter;
    var a := Begin(b + j, RequestAt(k, b + j));
    var s := Run(cfg, s0, acts);
    var pcs := With(base, b, k, i, j + 1, b + j, First(k));
    OneBegin(cfg, s, base, b, k, i, j, i);
    NewCall(base, b, k, i, j);
    FirstIsIdle(base, b, k, i, j);
    OverlapBound(cfg, Exec(cfg, s, a), base, b, k, j + 1, pcs, i, b + i, b + j);
    Extend(cfg, s0, acts, a, k, n);
  }

  lemma BesideOf(cfg: Config, s0: Sys, acts: seq<Action>, n: nat, base: Sys, b: nat, k: Key,
                 j: nat, pcs: map<CallId, Pc>, count: nat)
    requires Reaches(cfg, s0, acts, n, base, b, k, j, pcs, count)
    ensures Beside(base, b, k)
  {
  }

  lemma ChecksPass(cfg: Config, k: Key, count: nat)
    requires IsLadderKey(k) && count < Maximum(cfg, k)
    ensures var pc := NextPc(cfg, First(k));
            && OnTheWay(cfg, k, First(k), count) && OnTheWay(cfg, k, pc, count)
            && !Counts(First(k)) && !Counts(pc) && NextPc(cfg, pc) == Checked(k)
  {
  }

  /** One more call passes the check. */
  lemma Raise(cfg: Config, s0: Sys, acts: seq<Action>, n: nat, base: Sys, b: nat, k: Key, i: nat, j: nat)
    returns (more: seq<Action>)
    requires IsLadderKey(k) && i <= j < i + n && i < Maximum(cfg, k)
    requires Reaches(cfg, s0, acts, n, base, b, k, j, Ladder(base, b, k, i, j), i)
    ensures Reaches(cfg, s0, more, n, base, b, k, j + 1, Ladder(base, b, k, i, j + 1), i)
    ensures NoTicks(acts) ==> NoTicks(more)
  {
    hide *;
    BesideOf(cfg, s0, acts, n, base, b, k, j, Ladder(base, b, k, i, j), i);
    ChecksPass(cfg, k, i);
    var t, a := b + j, Advance(b + j, KafkaProducer.Delivered);
    ReachBegin(cfg, s0, acts, n, base, b, k, i, j);
    more := acts + [Begin(t, RequestAt(k, t))];
    ReachMove(cfg, s0, more, n, base, b, k, i, j + 1, t, First(k), i);
    ReachMove(cfg, s0, more + [a], n, base, b, k, i, j + 1, t, NextPc(cfg, First(k)), i);
    WithChecked(base, b, k, i, j + 1, t);
    NoTicksSnoc(acts, Begin(t, RequestAt(k, t)));
    NoTicksSnoc(more, a);
    NoTicksSnoc(more + [a], a);
    more := more + [a] + [a];
  }

  lemma CountingGoesOn(cfg: Config, k: Key, count: nat)
    requires IsLadderKey(k)
    ensures OnTheWay(cfg, k, Checked(k), count)
    ensures k.Rate? ==>
              && !Counts(Checked(k)) && NextPc(cfg, Checked(k)) == SendIncr
              && OnTheWay(cfg, k, SendIncr, count) && Counts(SendIncr) && NextPc(cfg, SendIncr) == SendExpire
              && OnTheWay(cfg, k, SendExpire, count + 1) && !Counts(SendExpire) && NextPc(cfg, SendExpire) == Counted(k)
    ensures !k.Rate? ==>
              && Counts(Checked(k)) && NextPc(cfg, Checked(k)) == VerifyExpire(META)
              && OnTheWay(cfg, k, VerifyExpire(META), count + 1) && !Counts(VerifyExpire(META))
              && NextPc(cfg, VerifyExpire(META)) == Counted(k)
  {
  }

  /** The oldest call that has passed the check counts. */
  lemma CountOne(cfg: Config, s0: Sys, acts: seq<Action>, n: nat, base: Sys, b: nat, k: Key, i: nat, j: nat)
    returns (more: seq<Action>)
    requires IsLadderKey(k) && i < j <= i + n
    requires Reaches(cfg, s0, acts, n, base, b, k, j, Ladder(base, b, k, i, j), i)
    ensures Reaches(cfg, s0, more, n, base, b, k, j, Ladder(base, b, k, i + 1, j), i + 1)
    ensures NoTicks(acts) ==> NoTicks(more)
  {
    hide *;
    BesideOf(cfg, s0, acts, n, base, b, k, j, Ladder(base, b, k, i, j), i);
    CountingGoesOn(cfg, k, i);
    var t, a := b + i, Advance(b + i, KafkaProducer.Delivered);
    WithChecked(base, b, k, i, j, t);
    ReachMove(cfg, s0, acts, n, base, b, k, i, j, t, Checked(k), i);
    more := acts + [a];
    NoTicksSnoc(acts, a);
    NoTicksSnoc(more, a);
    NoTicksSnoc(more + [a], a);
    if k.Rate? {
      ReachMove(cfg, s0, more, n, base, b, k, i, j, t, SendIncr, i);
      ReachMove(cfg, s0, more + [a], n, base, b, k, i, j, t, SendExpire, i + 1);
      more := more + [a] + [a];
    } else {
      ReachMove(cfg, s0, more, n, base, b, k, i, j, t, VerifyExpire(META), i + 1);
      more := more + [a];
    }
    WithCounted(base, b, k, i, j);
  }

  /** From the foot of a ladder: calls one at a time up to the maximum less one, then n at once. */
  lemma Climb(cfg: Config, s0: Sys, acts: seq<Action>, n: nat, base: Sys, b: nat, k: Key) returns (more: seq<Action>)
    requires IsLadderKey(k) && Maximum(cfg, k) >= 1 && n >= 1
    requires Reaches(cfg, s0, acts, n, base, b, k, 0, Ladder(base, b, k, 0, 0), 0)
    ensures var top := Maximum(cfg, k) + n - 1;
            Reaches(cfg, s0, more, n, base, b, k, top, Ladder(base, b, k, top, top), top)
  {
    hide Reaches;
    var m := Maximum(cfg, k) - 1;
    more := acts;
    for i := 0 to m
      invariant Reaches(cfg, s0, more, n, base, b, k, i, Ladder(base, b, k, i, i), i)
    {
      more := Raise(cfg, s0, more, n, base, b, k, i, i);
      more := CountOne(cfg, s0, more, n, base, b, k, i, i + 1);
    }
    for j := m to m + n
      invariant Reaches(cfg, s0, more, n, base, b, k, j, Ladder(base, b, k, m, j), m)
    {
      more := Raise(cfg, s0, more, n, base, b, k, m, j);
    }
    for i := m to m + n
      invariant Reaches(cfg, s0, more, n, base, b, k, m + n, Ladder(base, b, k, i, m + n), i)
    {
      more := CountOne(cfg, s0, more, n, base, b, k, i, m + n);
    }
  }

  // ---- from an empty system ----

  const START := Sys(World(0, map[], Db(map[], map[])), map[], map[])

  lemma RateFoot(cfg: Config, n: nat)
    ensures Reaches(cfg, START, [], n, START, 0, Rate(EMAIL), 0, Ladder(START, 0, Rate(EMAIL), 0, 0), 0) && Initial(START)
  {
    var k := Rate(EMAIL);
    assert Requests(START, 0, k, 0) == map[] && Ladder(START, 0, k, 0, 0) == map[];
    assert Overlapping(START, k) == {};
  }

  lemma OthersStay(cfg: Config, s: Sys, a: Action, id: CallId, k: Key)
    requires a.Tick? || a.id == id
    ensures Overlapping(Exec(cfg, s, a), k) <= Overlapping(s, k) + {id}
  {
    hide StepWith, UsesCounter;
  }

  /** While one call runs alone, only that call may use the counter. */
  lemma {:induction false} OneCallAlone(cfg: Config, s0: Sys, front: seq<Action>, more: seq<Action>, id: CallId, k: Key, n: nat)
    requires AtMostOverlapping(cfg, s0, front, k, n) && Overlapping(Run(cfg, s0, front), k) == {}
    requires OnlyOf(more, id) && n >= 1
    ensures AtMostOverlapping(cfg, s0, front + more, k, n) && Overlapping(Run(cfg, s0, front + more), k) <= {id}
  {
    hide Exec, Overlapping;
    if more == [] {
      assert front + more == front;
    } else {
      var before, a := more[..|more| - 1], more[|more| - 1];
      OneCallAlone(cfg, s0, front, before, id, k, n);
      assert (front + more)[..|front + more| - 1] == front + before;
      OthersStay(cfg, Run(cfg, s0, front + before), a, id, k);
      SubsetSize(Overlapping(Run(cfg, s0, front + more), k), {id});
    }
  }

  lemma SignupOpensSession(cfg: Config)
    requires cfg.otpRateMaxPerHour >= 1
    ensures var (w, r) := Apply(cfg, START.w, Signup(1));
            w.now == 0 && Get(w.store, Session("x"), 0) == Some(OtpSession(DataFor(cfg))) && Attempts(EMAIL) !in w.store
  {
    assert Signup(1).sid == "x";
    Atomic.SendEffect(cfg, START.w, Signup(1));
    hide Apply, hmacFor;
  }

  lemma FootStands(cfg: Config, w: World, r: Response)
    requires w.now == 0 && Get(w.store, Session("x"), 0) == Some(OtpSession(DataFor(cfg))) && Attempts(EMAIL) !in w.store
    ensures var base, k := Sys(w, map[0 := Signup(1)], map[0 := Done(r)]), Attempts(EMAIL);
            && Beside(base, 1, k) && Ladder(base, 1, k, 0, 0) == base.pcs
            && Shape(cfg, base, base, 1, k, 0, base.pcs, 0)
  {
    var base, k := Sys(w, map[0 := Signup(1)], map[0 := Done(r)]), Attempts(EMAIL);
    assert Requests(base, 1, k, 0) == base.reqs && Ladder(base, 1, k, 0, 0) == base.pcs;
    hide DataFor, Get;
  }

  lemma NobodyOverlaps(cfg: Config, k: Key, n: nat)
    ensures Enabled(START, Begin(0, Signup(1))) && AtMostOverlapping(cfg, START, [], k, n)
    ensures Overlapping(Run(cfg, START, []), k) == {}
  {
  }

  lemma AttemptsFoot(cfg: Config, n: nat) returns (acts: seq<Action>)
    requires cfg.otpRateMaxPerHour >= 1 && n >= 1
    ensures var base := Run(cfg, START, acts);
            var k := Attempts(EMAIL);
            Reaches(cfg, START, acts, n, base, 1, k, 0, Ladder(base, 1, k, 0, 0), 0) && NoTicks(acts)
  {
    var k := Attempts(EMAIL);
    SignupOpensSession(cfg);
    NobodyOverlaps(cfg, k, n);
    hide Apply, Run, AtMostOverlapping, Overlapping, Beside, Shape, Ladder, Enabled, Signup, DataFor, Get, OnlyOf;
    acts := AtomicCallIsARun(cfg, START, 0, Signup(1));
    OneCallAlone(cfg, START, [], acts, 0, k, n);
    assert [] + acts == acts;
    FootStands(cfg, Apply(cfg, START.w, Signup(1)).0, Apply(cfg, START.w, Signup(1)).1);
  }

  /**
   For both counters, every maximum of at least one and every n of at least one: at most n
   overlapping calls for one email bring the counter to the maximum plus n - 1.
   */
  lemma OvershootIsReached(cfg: Config, k: Key, n: nat) returns (acts: seq<Action>)
    requires IsLadderKey(k) && Maximum(cfg, k) >= 1 && cfg.otpRateMaxPerHour >= 1 && n >= 1
    ensures Initial(START) && AtMostOverlapping(cfg, START, acts, k, n)
    ensures var s := Run(cfg, START, acts); CountAt(s.w.store, k, s.w.now) == Maximum(cfg, k) + n - 1
  {
    hide Reaches, Run, AtMostOverlapping, Ladder;
    RateFoot(cfg, n);
    var base, b, front := START, 0, [];
    if k.Attempts? {
      front := AttemptsFoot(cfg, n);
      base, b := Run(cfg, START, front), 1;
    }
    acts := Climb(cfg, START, front, n, base, b, k);
    var top := Maximum(cfg, k) + n - 1;
    CountOfReached(cfg, acts, n, base, b, k, top, Ladder(base, b, k, top, top), top);
  }

  lemma CountOfReached(cfg: Config, acts: seq<Action>, n: nat, base: Sys, b: nat, k: Key,
                       j: nat, pcs: map<CallId, Pc>, count: nat)
    requires Reaches(cfg, START, acts, n, base, b, k, j, pcs, count)
    ensures AtMostOverlapping(cfg, START, acts, k, n)
    ensures var s := Run(cfg, START, acts); CountAt(s.w.store, k, s.w.now) == count
  {
    hide Run, AtMostOverlapping;
  }
}
