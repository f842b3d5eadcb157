/**
 The rate limit is not a limit per hour. Every send renews the counter's expiry, so for every
 maximum of at least two some run refuses a signup although fewer codes than the maximum
 were stored for its email in the hour before.
 */
module RateWindow {
  import opened Wrappers
  import opened GoTime
  import opened Model
  import opened Keys
  import opened TimedStore
  import opened Tables
  import opened Service
  import opened Atomic
  import opened AtomicRuns
  import opened OvershootReached

  const EMPTY := World(0, map[], Db(map[], map[]))

  /** One code, fifty minutes, m - 1 codes, twenty minutes, and one more signup. */
  function EventAt(m: nat, i: nat): Event {
    if i == 1 then Tick(50 * MINUTE) else if i == m + 1 then Tick(20 * MINUTE) else Call(Signup(i))
  }

  function Events(m: nat): seq<Event> { seq(m + 3, i requires 0 <= i < m + 3 => EventAt(m, i)) }

  /** The events that stored a code for the email in the hour before event i. */
  ghost function CodesInLastHour(cfg: Config, w0: World, evs: seq<Event>, i: nat, email: string): set<nat>
    requires i <= |evs|
  {
    set j: nat | j < i && StoredCode(cfg, w0, evs, j, email) && At(cfg, w0, evs, i).now - At(cfg, w0, evs, j).now < HOUR
  }

  ghost predicate StoredCode(cfg: Config, w0: World, evs: seq<Event>, j: nat, email: string)
    requires j < |evs|
  {
    evs[j].Call? && Generates(cfg, At(cfg, w0, evs, j), evs[j].req) && evs[j].req.email == email
  }

  /** No account yet, and a counter that was renewed at a time. */
  ghost predicate CountedTo(w: World, now: int, n: nat, renewed: int) {
    && w.now == now && w.db == Db(map[], map[])
    && (if n == 0 then Rate(EMAIL) !in w.store
        else Rate(EMAIL) in w.store && w.store[Rate(EMAIL)] == Entry(Counter(n), Some(renewed + HOUR)))
  }

  lemma SignupCounts(cfg: Config, w: World, t: nat, now: int, n: nat, renewed: int)
    requires CountedTo(w, now, n, renewed) && now - renewed < HOUR && n < cfg.otpRateMaxPerHour
    ensures CountedTo(Apply(cfg, w, Signup(t)).0, now, n + 1, now)
  {
    SendEffect(cfg, w, Signup(t));
    hide Apply, hmacFor;
  }

  lemma SignupRefused(cfg: Config, w: World, t: nat, now: int, n: nat, renewed: int)
    requires CountedTo(w, now, n, renewed) && now - renewed < HOUR && 0 < n && n >= cfg.otpRateMaxPerHour
    ensures Apply(cfg, w, Signup(t)).1 == TooManyRequests
  {
    SendEffect(cfg, w, Signup(t));
    hide Apply, hmacFor;
  }

  lemma {:induction false} AtEvent(cfg: Config, m: nat, i: nat)
    requires cfg.otpRateMaxPerHour == m && m >= 2 && i <= m + 2
    ensures var w := At(cfg, EMPTY, Events(m), i);
            if i == 0 then CountedTo(w, 0, 0, 0)
            else if i == 1 then CountedTo(w, 0, 1, 0)
            else if i == 2 then CountedTo(w, 50 * MINUTE, 1, 0)
            else if i <= m + 1 then CountedTo(w, 50 * MINUTE, i - 1, 50 * MINUTE)
            else CountedTo(w, 70 * MINUTE, m, 50 * MINUTE)
  {
    hide Apply, CountedTo, Signup;
    if i == 0 {
      StartCounts();
    } else {
      AtEvent(cfg, m, i - 1);
      var w := At(cfg, EMPTY, Events(m), i - 1);
      assert Events(m)[i - 1] == EventAt(m, i - 1);
      if i == 1 { SignupCounts(cfg, w, 0, 0, 0, 0); }
      else if i == 2 { TimeCounts(w, 50 * MINUTE, 0, 1, 0); }
      else if i == 3 { SignupCounts(cfg, w, 2, 50 * MINUTE, 1, 0); }
      else if i <= m + 1 { SignupCounts(cfg, w, i - 1, 50 * MINUTE, i - 2, 50 * MINUTE); }
      else { TimeCounts(w, 20 * MINUTE, 50 * MINUTE, m, 50 * MINUTE); }
    }
  }

  lemma StartCounts()
    ensures CountedTo(EMPTY, 0, 0, 0)
  {
  }

  lemma TimeCounts(w: World, d: nat, now: int, n: nat, renewed: int)
    requires CountedTo(w, now, n, renewed)
    ensures CountedTo(w.(now := w.now + d), now + d, n, renewed)
  {
  }

  function Middle(m: nat): (ids: set<nat>)
    requires m >= 1
    ensures |ids| == m - 1 && forall j :: j in ids <==> 2 <= j <= m
  {
    if m == 1 then {} else Middle(m - 1) + {m}
  }

  lemma CodesAreInTheMiddle(cfg: Config, m: nat, j: nat)
    requires cfg.otpRateMaxPerHour == m && m >= 2 && j in CodesInLastHour(cfg, EMPTY, Events(m), m + 2, EMAIL)
    ensures 2 <= j <= m
  {
    AtEvent(cfg, m, m + 2);
    AtEvent(cfg, m, j);
    assert Events(m)[j] == EventAt(m, j);
    hide At, Generates;
  }

  /**
   For every maximum of at least two: the last signup of the run is answered TooManyRequests
   although fewer codes than the maximum were stored for its email in the last hour.
   */
  lemma RefusedBelowTheLimit(cfg: Config)
    requires cfg.otpRateMaxPerHour >= 2
    ensures var m := cfg.otpRateMaxPerHour;
            var evs := Events(m);
            && evs[m + 2] == Call(Signup(m + 2))
            && Apply(cfg, At(cfg, EMPTY, evs, m + 2), Signup(m + 2)).1 == TooManyRequests
            && |CodesInLastHour(cfg, EMPTY, evs, m + 2, EMAIL)| < m
  {
    var m := cfg.otpRateMaxPerHour;
    hide Apply, At, CountedTo, CodesInLastHour, Generates;
    AtEvent(cfg, m, m + 2);
    SignupRefused(cfg, At(cfg, EMPTY, Events(m), m + 2), m + 2, 70 * MINUTE, m, 50 * MINUTE);
    forall j | j in CodesInLastHour(cfg, EMPTY, Events(m), m + 2, EMAIL) ensures j in Middle(m) {
      CodesAreInTheMiddle(cfg, m, j);
    }
    SubsetSize(CodesInLastHour(cfg, EMPTY, Events(m), m + 2, EMAIL), Middle(m));
  }
}
