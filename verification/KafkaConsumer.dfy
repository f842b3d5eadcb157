/**
 The consumer half of utils/kafka.go: Consume polls, handles, then stores the offset, while
 librdkafka commits stored offsets in the background and the process may die and restart
 from the committed offsets at any point. A run is any sequence of events.
 */
module KafkaConsumer {
  import opened Wrappers

  type Partition = nat

  /** What became of one polled message; the process survives only the last of these. */
  datatype Fate = HandlerFails | DiesAfterHandling | StoreFails | Stores

  datatype Event<T> =
    | Append(p: Partition, m: T)      // a producer's message reaches the log
    | Commit(p: Partition)            // background or closing commit of the stored offset
    | NoMessage                       // Poll timed out
    | Warning                         // a non-fatal client error
    | Poll(p: Partition, fate: Fate)
    | FatalError
    | CtxDone
    | Crash
    | Restart

  /** One handler call, in the order they were made. */
  datatype Handling = Handling(p: Partition, offset: nat, ok: bool)

  datatype State<T> = State(
    logs: map<Partition, seq<T>>,
    committed: map<Partition, nat>,
    stored: map<Partition, nat>,
    position: map<Partition, nat>,
    history: seq<Handling>,
    running: bool)

  function Offset(m: map<Partition, nat>, p: Partition): nat { if p in m then m[p] else 0 }

  function Log<T>(s: State<T>, p: Partition): seq<T> { if p in s.logs then s.logs[p] else [] }

  /** A group without committed offsets starts at the earliest record. */
  function Start<T>(logs: map<Partition, seq<T>>): State<T> {
    State(logs, map[], map[], map[], [], true)
  }

  function PollNext<T>(s: State<T>, p: Partition, fate: Fate): State<T> {
    var o := Offset(s.position, p);
    if !s.running || o >= |Log(s, p)| then s
    else s.(position := s.position[p := o + 1],
            history := s.history + [Handling(p, o, !fate.HandlerFails?)],
            stored := if fate.Stores? then s.stored[p := o + 1] else s.stored,
            running := fate.Stores?)
  }

  function Next<T>(s: State<T>, e: Event<T>): State<T> {
    match e
    case Append(p, m) => s.(logs := s.logs[p := Log(s, p) + [m]])
    case Commit(p) => s.(committed := s.committed[p := Offset(s.stored, p)])
    case NoMessage => s
    case Warning => s
    case Poll(p, fate) => PollNext(s, p, fate)
    case FatalError => s.(running := false)
    case CtxDone => s.(running := false)
    case Crash => s.(running := false)
    case Restart => if s.running then s else s.(stored := s.committed, position := s.committed, running := true)
  }

  function Run<T>(s: State<T>, evs: seq<Event<T>>): State<T> {
    if evs == [] then s else Next(Run(s, evs[..|evs| - 1]), evs[|evs| - 1])
  }

  /** The offsets of p in the order in which they were first handled successfully. */
  function FirstSuccesses(h: seq<Handling>, p: Partition): seq<nat> {
    if h == [] then []
    else
      var before := FirstSuccesses(h[..|h| - 1], p);
      var last := h[|h| - 1];
      if last.p == p && last.ok && last.offset !in before then before + [last.offset] else before
  }

  predicate Handled(h: seq<Handling>, from: nat, p: Partition, o: nat) {
    exists i | from <= i < |h| :: h[i] == Handling(p, o, true)
  }

  ghost predicate InvAt<T>(s: State<T>, p: Partition) {
    && Offset(s.committed, p) <= Offset(s.stored, p) <= Offset(s.position, p) <= |Log(s, p)|
    && (s.running ==> Offset(s.stored, p) == Offset(s.position, p))
    && var firsts := FirstSuccesses(s.history, p);
       && Offset(s.stored, p) <= |firsts| <= |Log(s, p)|
       && CountsUp(firsts)
  }

  lemma HistoryGrows(h: seq<Handling>, x: Handling, p: Partition)
    ensures FirstSuccesses(h + [x], p) ==
            if x.p == p && x.ok && x.offset !in FirstSuccesses(h, p) then FirstSuccesses(h, p) + [x.offset]
            else FirstSuccesses(h, p)
  {
    assert (h + [x])[..|h|] == h;
  }

  /** The first successes of p are the offsets 0 to n - 1 in order. */
  predicate CountsUp(firsts: seq<nat>) {
    forall i | 0 <= i < |firsts| :: firsts[i] == i
  }

  lemma HandlingKeepsCountingUp(h: seq<Handling>, x: Handling, p: Partition)
    requires CountsUp(FirstSuccesses(h, p)) && (x.p == p ==> x.offset <= |FirstSuccesses(h, p)|)
    ensures CountsUp(FirstSuccesses(h + [x], p))
    ensures |FirstSuccesses(h, p)| <= |FirstSuccesses(h + [x], p)|
    ensures x.p == p && x.ok ==> |FirstSuccesses(h + [x], p)| > x.offset
    ensures |FirstSuccesses(h + [x], p)| > |FirstSuccesses(h, p)| ==>
              x.p == p && |FirstSuccesses(h + [x], p)| == x.offset + 1
  {
    HistoryGrows(h, x, p);
    var firsts := FirstSuccesses(h, p);
    assert x.p == p && x.offset < |firsts| ==> firsts[x.offset] == x.offset;
  }

  lemma PollKeepsInv<T>(s: State<T>, q: Partition, fate: Fate, p: Partition)
    requires InvAt(s, p)
    ensures InvAt(PollNext(s, q, fate), p)
  {
    hide CountsUp, FirstSuccesses;
    var o := Offset(s.position, q);
    if s.running && o < |Log(s, q)| {
      HandlingKeepsCountingUp(s.history, Handling(q, o, !fate.HandlerFails?), p);
    }
  }

  /** The invariant of every reachable state, for any number of crashes and restarts. */
  lemma {:induction false} Reachable<T>(s: State<T>, evs: seq<Event<T>>, p: Partition)
    requires InvAt(s, p)
    ensures InvAt(Run(s, evs), p)
  {
    if evs != [] {
      var front, e := evs[..|evs| - 1], evs[|evs| - 1];
      Reachable(s, front, p);
      if e.Poll? {
        PollKeepsInv(Run(s, front), e.p, e.fate, p);
      }
    }
  }

  lemma {:induction false} FirstSuccessWasHandled(h: seq<Handling>, p: Partition, o: nat)
    ensures o in FirstSuccesses(h, p) <==> Handled(h, 0, p, o)
  {
    if h != [] {
      var front := h[..|h| - 1];
      FirstSuccessWasHandled(front, p, o);
      if Handled(front, 0, p, o) {
        var i :| 0 <= i < |front| && front[i] == Handling(p, o, true);
        assert h[i] == Handling(p, o, true);
      }
      if Handled(h, 0, p, o) && h[|h| - 1] != Handling(p, o, true) {
        var i :| 0 <= i < |h| && h[i] == Handling(p, o, true);
        assert front[i] == Handling(p, o, true);
      }
    }
  }

  /**
   Keeping only the first successful handling of each message gives exactly a prefix of the
   partition's log, in log order, and the stored offset lies within it.
   */
  lemma FirstHandlingsAreALogPrefix<T>(logs: map<Partition, seq<T>>, evs: seq<Event<T>>, p: Partition)
    ensures var s := Run(Start(logs), evs);
            var firsts := FirstSuccesses(s.history, p);
            && Offset(s.stored, p) <= |firsts| <= |Log(s, p)|
            && firsts == seq(|firsts|, i => i)
  {
    Reachable(Start(logs), evs, p);
  }

  /** At least once: whatever the crashes, every offset below stored, hence below committed, was handled. */
  lemma NoSilentSkip<T>(logs: map<Partition, seq<T>>, evs: seq<Event<T>>, p: Partition)
    ensures var s := Run(Start(logs), evs);
            && Offset(s.committed, p) <= Offset(s.stored, p) <= Offset(s.position, p) <= |Log(s, p)|
            && forall o | 0 <= o < Offset(s.stored, p) :: Handled(s.history, 0, p, o)
  {
    Reachable(Start(logs), evs, p);
    var s := Run(Start(logs), evs);
    forall o | 0 <= o < Offset(s.stored, p) ensures Handled(s.history, 0, p, o) {
      assert FirstSuccesses(s.history, p)[o] == o;
      FirstSuccessWasHandled(s.history, p, o);
    }
  }

  /** Either the offset is not passed, or it was handled successfully from position `from` of the history on. */
  ghost predicate Guarded<T>(s: State<T>, from: nat, p: Partition, o: nat) {
    || Handled(s.history, from, p, o)
    || (Offset(s.committed, p) <= o && Offset(s.stored, p) <= o && (s.running ==> Offset(s.position, p) <= o))
  }

  lemma GuardKept<T>(s: State<T>, e: Event<T>, from: nat, p: Partition, o: nat)
    requires Guarded(s, from, p, o) && from <= |s.history|
    ensures Guarded(Next(s, e), from, p, o) && from <= |Next(s, e).history|
  {
    var t := Next(s, e);
    if Handled(s.history, from, p, o) {
      var i :| from <= i < |s.history| && s.history[i] == Handling(p, o, true);
      assert t.history[i] == Handling(p, o, true);
    } else if e.Poll? && e.p == p && |t.history| > |s.history| {
      assert t.history[|s.history|] == Handling(p, Offset(s.position, p), !e.fate.HandlerFails?);
    }
  }

  lemma {:induction false} GuardHolds<T>(s: State<T>, evs: seq<Event<T>>, from: nat, p: Partition, o: nat)
    requires Guarded(s, from, p, o) && from <= |s.history|
    ensures Guarded(Run(s, evs), from, p, o) && from <= |Run(s, evs).history|
  {
    if evs != [] {
      GuardHolds(s, evs[..|evs| - 1], from, p, o);
      GuardKept(Run(s, evs[..|evs| - 1]), evs[|evs| - 1], from, p, o);
    }
  }

  /**
   A message whose handler failed is not passed by the stored offset, in any continuation with
   any crashes, unless a handling after that failure succeeded; earlier successes do not count.
   */
  lemma FailedMessageNotPassed<T>(logs: map<Partition, seq<T>>, evs: seq<Event<T>>, p: Partition, later: seq<Event<T>>)
    requires var s := Run(Start(logs), evs); s.running && Offset(s.position, p) < |Log(s, p)|
    ensures var s := Run(Start(logs), evs);
            var o := Offset(s.position, p);
            var t := Run(PollNext(s, p, HandlerFails), later);
            Offset(t.stored, p) > o ==> Handled(t.history, |s.history| + 1, p, o)
  {
    Reachable(Start(logs), evs, p);
    var s := Run(Start(logs), evs);
    GuardHolds(PollNext(s, p, HandlerFails), later, |s.history| + 1, p, Offset(s.position, p));
  }

  // ---- stopping and restarting ----

  /** The events that end a Consume call whatever it is doing. */
  predicate Stops<T>(e: Event<T>) { e.CtxDone? || e.FatalError? || e.Crash? }

  lemma StoppedStep<T>(s: State<T>, e: Event<T>)
    requires !s.running && !e.Restart?
    ensures var t := Next(s, e);
            !t.running && t.history == s.history && t.stored == s.stored && t.position == s.position
  {
  }

  /** After a cancelled context, a fatal error or a crash nothing is handled and no offset stored until a restart. */
  lemma {:induction false} StoppedStaysStopped<T>(s: State<T>, e: Event<T>, evs: seq<Event<T>>)
    requires Stops(e) && forall x | x in evs :: !x.Restart?
    ensures var t := Run(Next(s, e), evs);
            !t.running && t.history == s.history && t.stored == s.stored && t.position == s.position
  {
    if evs != [] {
      var front, x := evs[..|evs| - 1], evs[|evs| - 1];
      assert x in evs && forall y | y in front :: y in evs;
      StoppedStaysStopped(s, e, front);
      StoppedStep(Run(Next(s, e), front), x);
    }
  }

  /** A handling that fails, dies or cannot store leaves the stored offset alone. */
  lemma {:induction false} OnlyStoringStores<T>(s: State<T>, evs: seq<Event<T>>, p: Partition)
    requires forall e | e in evs :: e != Poll(p, Stores) && !e.Restart?
    ensures Offset(Run(s, evs).stored, p) == Offset(s.stored, p)
  {
    if evs != [] {
      var front, e := evs[..|evs| - 1], evs[|evs| - 1];
      assert e in evs && forall x | x in front :: x in evs;
      OnlyStoringStores(s, front, p);
    }
  }

  lemma {:induction false} OnlyCommitCommits<T>(s: State<T>, evs: seq<Event<T>>, p: Partition)
    requires forall e | e in evs :: e != Commit(p)
    ensures Offset(Run(s, evs).committed, p) == Offset(s.committed, p)
  {
    if evs != [] {
      var front, e := evs[..|evs| - 1], evs[|evs| - 1];
      assert e in evs && forall x | x in front :: x in evs;
      OnlyCommitCommits(s, front, p);
    }
  }

  /**
   A crash costs exactly what was stored since the last commit: whatever happened in between,
   the restarted consumer goes on at the offset that the last Commit of the partition found stored.
   */
  lemma RestartResumesAtTheLastCommit<T>(s: State<T>, p: Partition, since: seq<Event<T>>)
    requires forall e | e in since :: e != Commit(p)
    ensures var t := Next(Next(Run(Next(s, Commit(p)), since), Crash), Restart);
            t.running && Offset(t.position, p) == Offset(t.stored, p) == Offset(s.stored, p)
  {
    OnlyCommitCommits(Next(s, Commit(p)), since, p);
    hide Run;
  }

  // ---- what a deterministic handler lets through ----

  /** Only messages the handler accepts are ever handled successfully. */
  ghost predicate Honours<T>(s: State<T>, evs: seq<Event<T>>, accepts: T -> bool) {
    forall n | 0 <= n < |evs| ::
      HonoursStep(Run(s, evs[..n]), evs[n], accepts)
  }

  lemma {:induction false} LogGrows<T>(s: State<T>, evs: seq<Event<T>>, p: Partition)
    ensures Log(s, p) <= Log(Run(s, evs), p)
  {
    if evs != [] {
      LogGrows(s, evs[..|evs| - 1], p);
    }
  }

  /** One event honours the handler. */
  predicate HonoursStep<T>(t: State<T>, e: Event<T>, accepts: T -> bool) {
    e.Poll? && t.running && !e.fate.HandlerFails? && Offset(t.position, e.p) < |Log(t, e.p)|
    ==> accepts(Log(t, e.p)[Offset(t.position, e.p)])
  }

  lemma HonoursGrows<T>(s: State<T>, evs: seq<Event<T>>, e: Event<T>, accepts: T -> bool)
    ensures Honours(s, evs + [e], accepts) <==> Honours(s, evs, accepts) && HonoursStep(Run(s, evs), e, accepts)
    ensures Run(s, evs + [e]) == Next(Run(s, evs), e)
  {
    var more := evs + [e];
    assert more[..|evs|] == evs;
    assert forall k | 0 <= k < |evs| :: more[k] == evs[k] && more[..k] == evs[..k];
    assert Honours(s, more, accepts) ==> HonoursStep(Run(s, more[..|evs|]), more[|evs|], accepts);
    if Honours(s, more, accepts) {
      forall k | 0 <= k < |evs| ensures HonoursStep(Run(s, evs[..k]), evs[k], accepts) {
        assert HonoursStep(Run(s, more[..k]), more[k], accepts);
      }
    }
  }

  /** What was handled successfully is a message of the log that the handler accepts. */
  predicate AcceptedAt<T>(s: State<T>, x: Handling, accepts: T -> bool) {
    x.ok ==> x.offset < |Log(s, x.p)| && accepts(Log(s, x.p)[x.offset])
  }

  lemma AcceptedKept<T>(t: State<T>, e: Event<T>, accepts: T -> bool, i: nat)
    requires HonoursStep(t, e, accepts) && i < |Next(t, e).history|
    requires forall j | 0 <= j < |t.history| :: AcceptedAt(t, t.history[j], accepts)
    ensures AcceptedAt(Next(t, e), Next(t, e).history[i], accepts)
  {
    if i < |t.history| { assert AcceptedAt(t, t.history[i], accepts); }
  }

  lemma {:induction false} HandledIsAccepted<T>(s: State<T>, evs: seq<Event<T>>, accepts: T -> bool)
    requires Honours(s, evs, accepts) && s.history == []
    ensures var t := Run(s, evs); forall i | 0 <= i < |t.history| :: AcceptedAt(t, t.history[i], accepts)
  {
    if evs != [] {
      var front, e := evs[..|evs| - 1], evs[|evs| - 1];
      assert evs == front + [e];
      HonoursGrows(s, front, e, accepts);
      HandledIsAccepted(s, front, accepts);
      var t := Run(s, front);
      forall i | 0 <= i < |Next(t, e).history| ensures AcceptedAt(Next(t, e), Next(t, e).history[i], accepts) {
        AcceptedKept(t, e, accepts, i);
      }
    }
    hide AcceptedAt, HonoursStep;
  }

  lemma BlockKept<T>(t: State<T>, e: Event<T>, accepts: T -> bool, p: Partition, o: nat)
    requires InvAt(t, p) && HonoursStep(t, e, accepts)
    requires o < |Log(t, p)| && !accepts(Log(t, p)[o]) && Offset(t.stored, p) <= o
    ensures Offset(Next(t, e).stored, p) <= o
  {
  }

  /** The first message that the handler can never accept stops its partition for good. */
  lemma {:induction false} UnacceptableMessageBlocks<T>(
    s: State<T>, evs: seq<Event<T>>, accepts: T -> bool, p: Partition, o: nat)
    requires Honours(s, evs, accepts) && InvAt(s, p)
    requires o < |Log(s, p)| && !accepts(Log(s, p)[o]) && Offset(s.stored, p) <= o
    ensures Offset(Run(s, evs).stored, p) <= o
  {
    if evs != [] {
      var front, e := evs[..|evs| - 1], evs[|evs| - 1];
      assert evs == front + [e];
      HonoursGrows(s, front, e, accepts);
      UnacceptableMessageBlocks(s, front, accepts, p, o);
      LogGrows(s, front, p);
      Reachable(s, front, p);
      BlockKept(Run(s, front), e, accepts, p, o);
    }
  }

  /**
   Conversely, when every message before offset n is accepted, restarting if necessary and
   polling brings the stored offset of the partition to n.
   */
  lemma CatchesUp<T>(s: State<T>, accepts: T -> bool, p: Partition, n: nat) returns (evs: seq<Event<T>>)
    requires InvAt(s, p) && Offset(s.stored, p) <= n <= |Log(s, p)|
    requires forall o | 0 <= o < n :: accepts(Log(s, p)[o])
    ensures Honours(s, evs, accepts) && Offset(Run(s, evs).stored, p) == n
    ensures forall e | e in evs :: !e.Append?
  {
    evs := if s.running then [] else [Restart];
    Reachable(s, evs, p);
    RestartIsHonest(s, accepts, p);
    hide InvAt, HonoursStep, Honours, Run, Next;
    while Offset(Run(s, evs).stored, p) < n
      invariant Honours(s, evs, accepts) && InvAt(Run(s, evs), p) && Run(s, evs).running
      invariant Log(Run(s, evs), p) == Log(s, p) && Offset(Run(s, evs).stored, p) <= n
      invariant forall e | e in evs :: !e.Append?
      decreases n - Offset(Run(s, evs).stored, p)
    {
      OneMoreAccepted(Run(s, evs), accepts, p);
      HonoursGrows(s, evs, Poll(p, Stores), accepts);
      evs := evs + [Poll(p, Stores)];
    }
  }

  lemma RestartIsHonest<T>(s: State<T>, accepts: T -> bool, p: Partition)
    requires InvAt(s, p)
    ensures var evs: seq<Event<T>> := if s.running then [] else [Restart];
            var t := Run(s, evs);
            Honours(s, evs, accepts) && t.running && Log(t, p) == Log(s, p) && Offset(t.stored, p) <= Offset(s.stored, p)
  {
    var restart: seq<Event<T>> := [Restart];
    assert restart[..0] == [];
  }

  /** Polling a message that the handler accepts stores the next offset. */
  lemma OneMoreAccepted<T>(t: State<T>, accepts: T -> bool, p: Partition)
    requires InvAt(t, p) && t.running && Offset(t.stored, p) < |Log(t, p)| && accepts(Log(t, p)[Offset(t.stored, p)])
    ensures var e: Event<T> := Poll(p, Stores);
            var u := Next(t, e);
            && HonoursStep(t, e, accepts) && InvAt(u, p) && u.running && Log(u, p) == Log(t, p)
            && Offset(u.stored, p) == Offset(t.stored, p) + 1
  {
    PollKeepsInv(t, p, Stores, p);
    hide FirstSuccesses, CountsUp;
  }

  /** Some run that honours the handler brings the stored offset of p to n. */
  ghost predicate CanReach<T(!new)>(logs: map<Partition, seq<T>>, accepts: T -> bool, p: Partition, n: nat) {
    exists evs :: Honours(Start(logs), evs, accepts) && Offset(Run(Start(logs), evs).stored, p) >= n
  }

  predicate AllAccepted<T>(log: seq<T>, accepts: T -> bool, n: nat)
    requires n <= |log|
  {
    forall o | 0 <= o < n :: accepts(log[o])
  }

  /** The stored offset can reach n exactly when the handler accepts every message before n. */
  lemma ReachesExactlyTheAcceptedPrefix<T(!new)>(logs: map<Partition, seq<T>>, accepts: T -> bool, p: Partition, n: nat)
    requires n <= |Log(Start(logs), p)|
    ensures CanReach(logs, accepts, p, n) <==> AllAccepted(Log(Start(logs), p), accepts, n)
  {
    var s := Start(logs);
    if AllAccepted(Log(s, p), accepts, n) {
      var evs := CatchesUp(s, accepts, p, n);
      assert Offset(Run(s, evs).stored, p) >= n;
    } else {
      var o :| 0 <= o < n && !accepts(Log(s, p)[o]);
      forall evs | Honours(s, evs, accepts) ensures Offset(Run(s, evs).stored, p) < n {
        UnacceptableMessageBlocks(s, evs, accepts, p, o);
      }
    }
  }

  // ---- the object ----

  lemma RunOfNothing<T>(s: State<T>)
    ensures Run(s, []) == s
  {
  }

  lemma RunOneMore<T>(s: State<T>, evs: seq<Event<T>>, n: nat)
    requires n < |evs|
    ensures Run(s, evs[..n + 1]) == Next(Run(s, evs[..n]), evs[n])
  {
    assert evs[..n + 1][..n] == evs[..n];
  }

  datatype Exit = Cancelled | HandlerError | StoreError | FatalClientError | Died

  /** How the event that ends a Consume call ends it. */
  function ExitOf<T>(e: Event<T>): Exit {
    match e
    case CtxDone => Cancelled
    case FatalError => FatalClientError
    case Poll(_, HandlerFails) => HandlerError
    case Poll(_, StoreFails) => StoreError
    case _ => Died
  }

  /** The events at which a Consume call may return; the others never end it. */
  predicate MayEnd<T>(e: Event<T>) { Stops(e) || (e.Poll? && !e.fate.Stores?) }

  class Consumer<T> {
    var logs: map<Partition, seq<T>>
    var committed: map<Partition, nat>
    var stored: map<Partition, nat>
    var position: map<Partition, nat>
    ghost var history: seq<Handling>

    ghost function Snapshot(running: bool): State<T>
      reads this
    {
      State(logs, committed, stored, position, history, running)
    }

    /** librdkafka's part: appends and background commits. */
    method Background(e: Event<T>)
      requires e.Append? || e.Commit?
      modifies this
      ensures forall running :: Snapshot(running) == Next(old(Snapshot(running)), e)
    {
      match e {
        case Append(p, m) => logs := logs[p := (if p in logs then logs[p] else []) + [m]];
        case Commit(p) => committed := committed[p := if p in stored then stored[p] else 0];
      }
    }

    /** A Poll that may bring a message of p: the handler, then StoreMessage; None goes on. */
    method PollOne(p: Partition, fate: Fate) returns (ended: Option<Exit>)
      modifies this
      ensures Snapshot(ended.None?) == PollNext(old(Snapshot(true)), p, fate)
      ensures ended.Some? ==> ended.value == ExitOf<T>(Poll(p, fate)) && !fate.Stores?
      ensures ended.None? ==> history == old(history) || history == old(history) + [Handling(p, old(Offset(position, p)), true)]
      ensures ended.Some? ==> stored == old(stored)
      ensures ended.Some? ==>
                history == old(history) + [Handling(p, old(Offset(position, p)), !ended.value.HandlerError?)]
    {
      var o := if p in position then position[p] else 0;
      if !(p in logs && o < |logs[p]|) { return None; }
      position := position[p := o + 1];
      history := history + [Handling(p, o, !fate.HandlerFails?)];
      if fate.HandlerFails? { return Some(HandlerError); }
      if fate.DiesAfterHandling? { return Some(Died); }
      if fate.StoreFails? { return Some(StoreError); }
      stored := stored[p := o + 1];
      ended := None;
    }

    /**
     The Consume loop. The script says what each Poll brings and what happens around it; the
     loop stops at the first event that ends the call, or dies when the script ends.
     */
    method Consume(script: seq<Event<T>>) returns (n: nat, exit: Exit)
      modifies this
      ensures n <= |script|
      ensures var t := Run(old(Snapshot(true)), script[..n]);
              Snapshot(t.running) == t && (t.running ==> exit.Died? && n == |script|)
      ensures !Run(old(Snapshot(true)), script[..n]).running ==> n > 0 && exit == ExitOf(script[n - 1])
      ensures forall i | 0 <= i < n - 1 :: !Stops(script[i])
      ensures n < |script| ==> n > 0 && MayEnd(script[n - 1])
      ensures exit.Cancelled? <==> n > 0 && script[n - 1].CtxDone?
      ensures exit.FatalClientError? <==> n > 0 && script[n - 1].FatalError?
      ensures exit.HandlerError? <==> |history| > |old(history)| && !history[|history| - 1].ok
      ensures forall j | |old(history)| <= j < |history| - 1 :: history[j].ok
      ensures exit.StoreError? ==> n > 0 && script[n - 1].Poll? && script[n - 1].fate.StoreFails?
      ensures exit.Died? ==>
                n == |script| || script[n - 1].Crash? || (script[n - 1].Poll? && script[n - 1].fate.DiesAfterHandling?)
    {
      ghost var s0 := Snapshot(true);
      hide Run;
      RunOfNothing(s0);
      n := 0;
      while n < |script|
        invariant n <= |script|
        invariant Snapshot(true) == Run(s0, script[..n])
        invariant |history| >= |s0.history| && forall j | |s0.history| <= j < |history| :: history[j].ok
        invariant forall i | 0 <= i < n :: !Stops(script[i])
      {
        RunOneMore(s0, script, n);
        var e := script[n];
        n := n + 1;
        match e {
          case CtxDone => return n, Cancelled;
          case FatalError => return n, FatalClientError;
          case Crash => return n, Died;
          case Append(_, _) => Background(e);
          case Commit(_) => Background(e);
          case Poll(p, fate) =>
            var ended := PollOne(p, fate);
            if ended.Some? { return n, ended.value; }
          case _ =>
        }
      }
      assert script[..|script|] == script;
      exit := Died;
    }
  }
}
