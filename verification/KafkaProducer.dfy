/**
 The producer half of utils/kafka.go: any number of Publish calls, any number of Close
 callers, the event watcher, the broker and context cancellation, interleaved at the
 granularity of one critical section, one client call or one channel operation.
 A run is any sequence of actions; an action that is not enabled has no effect, so the
 results below are about every interleaving.
 */
module KafkaProducer {
  import opened Wrappers

  type CallId = nat
  type CloserId = nat

  /** What a Publish call returned. Delivered is the nil error. */
  datatype Outcome =
    | Delivered
    | ErrClosing
    | ErrUnavailable(cause: int)
    | ErrEnqueue
    | ErrDeliveryUnknown
    | ErrUnexpectedEvent
    | ErrDeliver(code: int)

  /** An event on a private delivery channel. */
  datatype Event = Message(error: Option<int>) | OtherEvent

  /** An event on the client-wide channel that watchEvents drains. */
  datatype ClientEvent = Stray(error: Option<int>) | ClientError(code: int, fatal: bool)

  /** Where a Publish call is. InFlight.Add has run from Admitted on, Done only in Returned. */
  datatype PublishPc = Entering | Admitted | Waiting | Leaving(out: Outcome) | Returned(out: Outcome)

  /** Progress of the one closure that closeOnce runs; stranded is what Flush left behind. */
  datatype OncePhase =
    | Idle
    | SettingClosing
    | Draining
    | Flushing
    | Closing(stranded: set<CallId>)
    | Recording(stranded: set<CallId>)
    | Completed(stranded: set<CallId>)

  datatype CloserPc = Calling | InOnce | Back(result: Option<nat>)

  datatype State = State(
    closing: bool,
    fatalErr: Option<int>,
    inFlight: int,
    once: OncePhase,
    closeErr: Option<nat>,
    calls: map<CallId, PublishPc>,
    closers: map<CloserId, CloserPc>,
    cancelled: set<CallId>,            // calls whose context is done
    clientOpen: bool,
    clientCloses: nat,
    queue: set<CallId>,                // accepted by the client, not reported yet
    log: seq<CallId>,                  // persisted by the broker
    delivery: map<CallId, Event>)      // the one-slot delivery channels

  const INIT := State(false, None, 0, Idle, None, map[], map[], {}, true, 0, {}, [], map[])

  /** One step of a Publish call. */
  datatype PublishStep = Arrive | Admit | Produce(accepted: bool) | CtxDone | Receive | Done

  /** One step of a Close caller outside the closure. */
  datatype CloserStep = CallClose | EnterOnce | CloseReturn

  /** One step of the closure that closeOnce runs. */
  datatype OnceStep = SetClosing | Drain | Flush | CloseClient | Record

  /** What the broker does with one queued message; a negative report needs an unpersisted one. */
  datatype BrokerStep = Persist | Report | Reject(code: int)

  datatype Action =
    | Publishing(c: CallId, p: PublishStep)
    | Closer(k: CloserId, q: CloserStep)
    | Shutdown(o: OnceStep)
    | Broker(c: CallId, b: BrokerStep)
    | Cancel(c: CallId)
    | Watch(event: ClientEvent)

  predicate At(s: State, c: CallId, pc: PublishPc) {
    c in s.calls && s.calls[c] == pc
  }

  /** Produce is deliberately not guarded by clientOpen. */
  predicate PublishEnabled(s: State, c: CallId, p: PublishStep) {
    match p
    case Arrive => c !in s.calls
    case Admit => At(s, c, Entering)
    case Produce(_) => At(s, c, Admitted)
    case CtxDone => At(s, c, Waiting) && c in s.cancelled
    case Receive => At(s, c, Waiting) && c in s.delivery
    case Done => c in s.calls && s.calls[c].Leaving?
  }

  /** The critical section at the top of Publish. */
  function AdmitNext(s: State, c: CallId): State {
    if s.closing then s.(calls := s.calls[c := Returned(ErrClosing)])
    else if s.fatalErr.Some? then s.(calls := s.calls[c := Returned(ErrUnavailable(s.fatalErr.value))])
    else s.(calls := s.calls[c := Admitted], inFlight := s.inFlight + 1)
  }

  function ReceivedOutcome(e: Event): Outcome {
    match e
    case OtherEvent => ErrUnexpectedEvent
    case Message(None) => Delivered
    case Message(Some(code)) => ErrDeliver(code)
  }

  function PublishNext(s: State, c: CallId, p: PublishStep): State
    requires PublishEnabled(s, c, p)
  {
    match p
    case Arrive => s.(calls := s.calls[c := Entering])
    case Admit => AdmitNext(s, c)
    case Produce(accepted) =>
      if accepted then s.(calls := s.calls[c := Waiting], queue := s.queue + {c})
      else s.(calls := s.calls[c := Leaving(ErrEnqueue)])
    case CtxDone => s.(calls := s.calls[c := Leaving(ErrDeliveryUnknown)])
    case Receive =>
      s.(calls := s.calls[c := Leaving(ReceivedOutcome(s.delivery[c]))], delivery := s.delivery - {c})
    case Done => s.(calls := s.calls[c := Returned(s.calls[c].out)], inFlight := s.inFlight - 1)
  }

  predicate CloserEnabled(s: State, k: CloserId, q: CloserStep) {
    match q
    case CallClose => k !in s.closers
    case EnterOnce => k in s.closers && s.closers[k].Calling? && s.once.Idle?
    case CloseReturn => k in s.closers && !s.closers[k].Back? && s.once.Completed?
  }

  function CloserNext(s: State, k: CloserId, q: CloserStep): State {
    match q
    case CallClose => s.(closers := s.closers[k := Calling])
    case EnterOnce => s.(closers := s.closers[k := InOnce], once := SettingClosing)
    case CloseReturn => s.(closers := s.closers[k := Back(s.closeErr)])
  }

  predicate OnceEnabled(s: State, o: OnceStep) {
    match o
    case SetClosing => s.once.SettingClosing?
    case Drain => s.once.Draining? && s.inFlight == 0
    case Flush => s.once.Flushing?
    case CloseClient => s.once.Closing?
    case Record => s.once.Recording?
  }

  function OnceNext(s: State, o: OnceStep): State
    requires OnceEnabled(s, o)
  {
    match o
    case SetClosing => s.(closing := true, once := Draining)
    case Drain => s.(once := Flushing)
    case Flush => s.(once := Closing(s.queue))
    case CloseClient => s.(clientOpen := false, clientCloses := s.clientCloses + 1, once := Recording(s.once.stranded))
    case Record =>
      s.(closeErr := if |s.once.stranded| > 0 then Some(|s.once.stranded|) else s.closeErr,
         once := Completed(s.once.stranded))
  }

  predicate BrokerEnabled(s: State, c: CallId, b: BrokerStep) {
    match b
    case Persist => c in s.queue && c !in s.log
    case Report => s.clientOpen && c in s.queue && c in s.log
    case Reject(_) => s.clientOpen && c in s.queue && c !in s.log
  }

  function BrokerNext(s: State, c: CallId, b: BrokerStep): State {
    match b
    case Persist => s.(log := s.log + [c])
    case Report => s.(queue := s.queue - {c}, delivery := s.delivery[c := Message(None)])
    case Reject(code) => s.(queue := s.queue - {c}, delivery := s.delivery[c := Message(Some(code))])
  }

  /** watchEvents keeps the first fatal error and only logs everything else. */
  function WatchNext(s: State, e: ClientEvent): State {
    if e.ClientError? && e.fatal && s.fatalErr.None? then s.(fatalErr := Some(e.code)) else s
  }

  predicate Enabled(s: State, a: Action) {
    match a
    case Publishing(c, p) => PublishEnabled(s, c, p)
    case Closer(k, q) => CloserEnabled(s, k, q)
    case Shutdown(o) => OnceEnabled(s, o)
    case Broker(c, b) => BrokerEnabled(s, c, b)
    case Cancel(_) => true
    case Watch(_) => s.clientOpen
  }

  function Exec(s: State, a: Action): State {
    if !Enabled(s, a) then s else
    match a
    case Publishing(c, p) => PublishNext(s, c, p)
    case Closer(k, q) => CloserNext(s, k, q)
    case Shutdown(o) => OnceNext(s, o)
    case Broker(c, b) => BrokerNext(s, c, b)
    case Cancel(c) => s.(cancelled := s.cancelled + {c})
    case Watch(e) => WatchNext(s, e)
  }

  function Run(s: State, acts: seq<Action>): State {
    if acts == [] then s else Exec(Run(s, acts[..|acts| - 1]), acts[|acts| - 1])
  }

  // ---- invariant ----

  predicate Counting(pc: PublishPc) { pc.Admitted? || pc.Waiting? || pc.Leaving? }

  /** The calls between inFlight.Add and inFlight.Done. */
  function InFlight(s: State): set<CallId> {
    set c | c in s.calls && Counting(s.calls[c])
  }

  predicate HasOutcome(pc: PublishPc, out: Outcome) { pc == Leaving(out) || pc == Returned(out) }

  /** The calls that told their caller that delivery is unknown. */
  function Unknown(s: State): set<CallId> {
    set c | c in s.calls && s.calls[c] == Returned(ErrDeliveryUnknown)
  }

  /** A message may be with the client or in a channel only while its call is here. */
  predicate MayLinger(pc: PublishPc) { pc.Waiting? || HasOutcome(pc, ErrDeliveryUnknown) }

  predicate Shutting(p: OncePhase) { p.Flushing? || p.Closing? || p.Recording? || p.Completed? }

  ghost predicate Phases(s: State) {
    && (s.closing <==> s.once.Draining? || Shutting(s.once))
    && (Shutting(s.once) ==> InFlight(s) == {})
    && (s.clientOpen <==> !s.once.Recording? && !s.once.Completed?)
    && s.clientCloses == (if s.clientOpen then 0 else 1)
    && (s.once.Closing? || s.once.Recording? || s.once.Completed? ==>
          s.queue <= s.once.stranded <= Unknown(s))
    && s.closeErr == (if s.once.Completed? && |s.once.stranded| > 0 then Some(|s.once.stranded|) else None)
    && (forall k | k in s.closers && s.closers[k].Back? :: s.once.Completed? && s.closers[k].result == s.closeErr)
  }

  /**
   What the broker side may hold of one call's message: queued, in its channel, persisted.
   A persisted message belongs to a call that still waits, said Delivered, or said unknown.
   */
  predicate MessageOk(s: State, c: CallId) {
    && (c in s.queue || c in s.delivery || c in s.log ==> c in s.calls)
    && (c in s.queue ==> MayLinger(s.calls[c]) && c !in s.delivery)
    && (c in s.delivery ==>
          && MayLinger(s.calls[c])
          && s.delivery[c].Message? && (s.delivery[c].error.None? <==> c in s.log))
    && (c in s.log ==> MayLinger(s.calls[c]) || HasOutcome(s.calls[c], Delivered))
    && (c in s.calls && HasOutcome(s.calls[c], Delivered) ==> c in s.log)
    && (c in s.calls && s.calls[c].Waiting? ==> c in s.queue || c in s.delivery)
    && (c in s.calls ==> !HasOutcome(s.calls[c], ErrUnexpectedEvent))
  }

  /** The broker log holds no message twice. */
  predicate Distinct(log: seq<CallId>) {
    forall i, j | 0 <= i < j < |log| :: log[i] != log[j]
  }

  ghost predicate Messages(s: State) {
    (forall c :: MessageOk(s, c)) && Distinct(s.log)
  }

  ghost predicate Inv(s: State) {
    s.inFlight == |InFlight(s)| && Phases(s) && Messages(s)
  }

  function Weight(calls: map<CallId, PublishPc>, c: CallId): int {
    if c in calls && Counting(calls[c]) then 1 else 0
  }

  /** Moving one call to another pc changes the in-flight set at that call only. */
  lemma CallMoves(s: State, t: State, c: CallId)
    requires c in t.calls && t.calls == s.calls[c := t.calls[c]]
    ensures InFlight(t) - {c} == InFlight(s) - {c}
    ensures |InFlight(t)| - |InFlight(s)| == Weight(t.calls, c) - Weight(s.calls, c)
  {
    var rest := InFlight(s) - {c};
    assert InFlight(t) == if Weight(t.calls, c) == 1 then rest + {c} else rest;
    assert InFlight(s) == if Weight(s.calls, c) == 1 then rest + {c} else rest;
  }

  /** A Publish step moves its own call and adjusts the counter by that call's weight. */
  lemma PublishShape(s: State, c: CallId, p: PublishStep)
    requires PublishEnabled(s, c, p)
    ensures var t := PublishNext(s, c, p);
            && c in t.calls && t.calls == s.calls[c := t.calls[c]]
            && t.inFlight - s.inFlight == Weight(t.calls, c) - Weight(s.calls, c)
            && t.(calls := s.calls, inFlight := s.inFlight, queue := s.queue, delivery := s.delivery) == s
            && (Weight(s.calls, c) < Weight(t.calls, c) ==> !s.closing)
            && (c in s.calls ==> !s.calls[c].Returned?)
            && t.queue - {c} == s.queue - {c} && (c in t.queue && c !in s.queue ==> c in InFlight(s))
  {
    PublishMovesCall(s, c, p);
    PublishFrame(s, c, p);
    hide PublishNext, Weight;
  }

  lemma PublishMovesCall(s: State, c: CallId, p: PublishStep)
    requires PublishEnabled(s, c, p)
    ensures var t := PublishNext(s, c, p);
            && c in t.calls && t.calls == s.calls[c := t.calls[c]]
            && t.inFlight - s.inFlight == Weight(t.calls, c) - Weight(s.calls, c)
            && (Weight(s.calls, c) < Weight(t.calls, c) ==> !s.closing)
            && (c in s.calls ==> !s.calls[c].Returned?)
  {
  }

  lemma PublishFrame(s: State, c: CallId, p: PublishStep)
    requires PublishEnabled(s, c, p)
    ensures var t := PublishNext(s, c, p);
            && t.(calls := s.calls, inFlight := s.inFlight, queue := s.queue, delivery := s.delivery) == s
            && t.queue - {c} == s.queue - {c} && (c in t.queue && c !in s.queue ==> c in InFlight(s))
  {
  }

  lemma PublishLeavesOther(s: State, c: CallId, p: PublishStep, d: CallId)
    requires MessageOk(s, d) && PublishEnabled(s, c, p) && d != c
    ensures MessageOk(PublishNext(s, c, p), d)
  {
  }

  predicate WhileWaiting(p: PublishStep) { p.CtxDone? || p.Receive? }

  lemma PublishOwnMessage(s: State, c: CallId, p: PublishStep)
    requires MessageOk(s, c) && PublishEnabled(s, c, p)
    ensures MessageOk(PublishNext(s, c, p), c)
  {
    if WhileWaiting(p) { OwnMessageWhileWaiting(s, c, p); } else { OwnMessageElsewhere(s, c, p); }
    hide *;
  }

  lemma OwnMessageWhileWaiting(s: State, c: CallId, p: PublishStep)
    requires MessageOk(s, c) && PublishEnabled(s, c, p) && WhileWaiting(p)
    ensures MessageOk(PublishNext(s, c, p), c)
  {
  }

  lemma OwnMessageElsewhere(s: State, c: CallId, p: PublishStep)
    requires MessageOk(s, c) && PublishEnabled(s, c, p) && !WhileWaiting(p)
    ensures MessageOk(PublishNext(s, c, p), c)
  {
  }

  lemma PublishKeepsMessages(s: State, c: CallId, p: PublishStep)
    requires Messages(s) && PublishEnabled(s, c, p)
    ensures Messages(PublishNext(s, c, p))
  {
    forall d ensures MessageOk(PublishNext(s, c, p), d) {
      if d == c { PublishOwnMessage(s, c, p); } else { PublishLeavesOther(s, c, p, d); }
    }
    PublishFrame(s, c, p);
    hide PublishNext, MessageOk;
  }

  lemma PublishKeepsPhases(s: State, c: CallId, p: PublishStep)
    requires Inv(s) && PublishEnabled(s, c, p)
    ensures Phases(PublishNext(s, c, p))
  {
    var t := PublishNext(s, c, p);
    PublishShape(s, c, p);
    CallMoves(s, t, c);
    assert Unknown(s) <= Unknown(t);
  }

  lemma PublishKeepsInv(s: State, c: CallId, p: PublishStep)
    requires Inv(s) && PublishEnabled(s, c, p)
    ensures Inv(PublishNext(s, c, p))
  {
    PublishKeepsPhases(s, c, p);
    PublishKeepsMessages(s, c, p);
    PublishShape(s, c, p);
    CallMoves(s, PublishNext(s, c, p), c);
  }

  lemma OnceKeepsInv(s: State, o: OnceStep)
    requires Inv(s) && OnceEnabled(s, o)
    ensures Inv(OnceNext(s, o))
  {
    var t := OnceNext(s, o);
    assert InFlight(t) == InFlight(s) && Unknown(t) == Unknown(s);
    if o.Flush? {
      forall c | c in s.queue ensures c in Unknown(s) {
        assert MessageOk(s, c) && c !in InFlight(s);
      }
    }
    forall d ensures MessageOk(t, d) { assert MessageOk(s, d); }
  }

  lemma CloserKeepsInv(s: State, k: CloserId, q: CloserStep)
    requires Inv(s) && CloserEnabled(s, k, q)
    ensures Inv(CloserNext(s, k, q))
  {
    var t := CloserNext(s, k, q);
    assert InFlight(t) == InFlight(s) && Unknown(t) == Unknown(s);
    forall d ensures MessageOk(t, d) { assert MessageOk(s, d); }
  }

  lemma BrokerKeepsInv(s: State, c: CallId, b: BrokerStep)
    requires Inv(s) && BrokerEnabled(s, c, b)
    ensures Inv(BrokerNext(s, c, b))
  {
    var t := BrokerNext(s, c, b);
    assert InFlight(t) == InFlight(s) && Unknown(t) == Unknown(s);
    forall d ensures MessageOk(t, d) { assert MessageOk(s, d); }
  }

  lemma InvKept(s: State, a: Action)
    requires Inv(s)
    ensures Inv(Exec(s, a))
  {
    if Enabled(s, a) {
      match a
      case Publishing(c, p) => PublishKeepsInv(s, c, p);
      case Closer(k, q) => CloserKeepsInv(s, k, q);
      case Shutdown(o) => OnceKeepsInv(s, o);
      case Broker(c, b) => BrokerKeepsInv(s, c, b);
      case _ =>
        var t := Exec(s, a);
        assert InFlight(t) == InFlight(s) && Unknown(t) == Unknown(s);
        forall d ensures MessageOk(t, d) { assert MessageOk(s, d); }
    }
  }

  /** Every state that any interleaving reaches satisfies the invariant. */
  lemma {:induction false} Reachable(s: State, acts: seq<Action>)
    requires Inv(s)
    ensures Inv(Run(s, acts))
  {
    if acts != [] {
      Reachable(s, acts[..|acts| - 1]);
      InvKept(Run(s, acts[..|acts| - 1]), acts[|acts| - 1]);
    }
  }

  lemma {:induction false} RunAppend(s: State, xs: seq<Action>, ys: seq<Action>)
    ensures Run(s, xs + ys) == Run(Run(s, xs), ys)
  {
    if ys == [] {
      assert xs + ys == xs;
    } else {
      var front := ys[..|ys| - 1];
      RunAppend(s, xs, front);
      assert (xs + ys)[..|xs + ys| - 1] == xs + front;
    }
  }

  // ---- safety over whole runs ----

  lemma InitInv()
    ensures Inv(INIT)
  {
    assert InFlight(INIT) == {};
  }

  /**
   Whatever the interleaving: a message still with the client once the client is closed
   belongs to a call that returned ErrDeliveryUnknown, so the count that Close reports is at
   most the number of such returns, and Close returns nil when there were none.
   */
  lemma PendingAtCloseIsUnknown(acts: seq<Action>)
    ensures var s := Run(INIT, acts);
            && (!s.clientOpen ==> forall c | c in s.queue :: At(s, c, Returned(ErrDeliveryUnknown)))
            && (s.closeErr.Some? ==> 0 < s.closeErr.value <= |Unknown(s)|)
            && (s.once.Completed? ==> (s.closeErr.None? <==> s.once.stranded == {}))
            && (forall k | k in s.closers && s.closers[k].Back? && Unknown(s) == {} :: s.closers[k].result == None)
  {
    InitInv();
    Reachable(INIT, acts);
    var s := Run(INIT, acts);
    forall c | !s.clientOpen && c in s.queue ensures At(s, c, Returned(ErrDeliveryUnknown)) {
      assert c in Unknown(s);
    }
    if s.closeErr.Some? {
      SubsetSize(s.once.stranded, Unknown(s));
    }
  }

  /**
   A call between its Add and its Done, whether about to Produce, waiting for its report
   with nothing to receive yet or leaving, never overlaps the client's Flush or Close.
   */
  lemma NoUseDuringShutdown(acts: seq<Action>, c: CallId)
    requires var s := Run(INIT, acts); c in s.calls && Counting(s.calls[c])
    ensures var s := Run(INIT, acts); s.clientOpen && !Shutting(s.once) && s.inFlight >= 1
  {
    InitInv();
    Reachable(INIT, acts);
    var s := Run(INIT, acts);
    assert c in InFlight(s);
  }

  /** Once closing is set it stays set and the counter never rises, so no Add races with Wait. */
  lemma ClosingOnlyDrains(s: State, a: Action)
    requires Inv(s) && s.closing
    ensures Exec(s, a).closing && Exec(s, a).inFlight <= s.inFlight
  {
    if Enabled(s, a) && a.Publishing? {
      PublishShape(s, a.c, a.p);
    }
  }

  /** The client is closed exactly once, and every Close caller returns the one recorded result after that. */
  lemma ClosedOnceSameResult(acts: seq<Action>, k1: CloserId, k2: CloserId)
    requires var s := Run(INIT, acts);
             k1 in s.closers && k2 in s.closers && s.closers[k1].Back? && s.closers[k2].Back?
    ensures var s := Run(INIT, acts);
            s.closers[k1].result == s.closers[k2].result == s.closeErr && s.clientCloses == 1 && !s.clientOpen
  {
    InitInv();
    Reachable(INIT, acts);
  }

  /** An error other than ErrDeliveryUnknown is definite: in no later state is the message persisted or pending. */
  lemma DefiniteErrorNeverLogged(acts: seq<Action>, later: seq<Action>, c: CallId, out: Outcome)
    requires At(Run(INIT, acts), c, Returned(out)) && out != Delivered && out != ErrDeliveryUnknown
    ensures var t := Run(INIT, acts + later);
            At(t, c, Returned(out)) && c !in t.log && c !in t.queue && out != ErrUnexpectedEvent
  {
    InitInv();
    Reachable(INIT, acts + later);
    RunAppend(INIT, acts, later);
    ReturnedStays(Run(INIT, acts), later, c);
    var t := Run(INIT, acts + later);
    assert MessageOk(t, c);
  }

  // ---- refusals and reported errors ----

  /** The call has not passed its critical section, or was turned away there. */
  predicate TurnedAway(s: State, c: CallId, e: int) {
    c in s.calls ==>
      s.calls[c].Entering? || s.calls[c] == Returned(ErrUnavailable(e)) || s.calls[c] == Returned(ErrClosing)
  }

  lemma TurnedAwayKept(s: State, a: Action, c: CallId, e: int)
    requires s.fatalErr == Some(e) && TurnedAway(s, c, e)
    ensures Exec(s, a).fatalErr == Some(e) && TurnedAway(Exec(s, a), c, e)
  {
    if Enabled(s, a) && a.Publishing? {
      PublishShape(s, a.c, a.p);
      if a.c == c { TurnedAwayThere(s, c, a.p, e); }
    }
  }

  lemma TurnedAwayThere(s: State, c: CallId, p: PublishStep, e: int)
    requires s.fatalErr == Some(e) && TurnedAway(s, c, e) && PublishEnabled(s, c, p)
    ensures TurnedAway(PublishNext(s, c, p), c, e)
  {
  }

  lemma {:induction false} TurnedAwayAlways(s: State, acts: seq<Action>, c: CallId, e: int)
    requires s.fatalErr == Some(e) && TurnedAway(s, c, e)
    ensures Run(s, acts).fatalErr == Some(e) && TurnedAway(Run(s, acts), c, e)
  {
    hide Exec, TurnedAway;
    if acts != [] {
      TurnedAwayAlways(s, acts[..|acts| - 1], c, e);
      TurnedAwayKept(Run(s, acts[..|acts| - 1]), acts[|acts| - 1], c, e);
    }
  }

  /**
   A producer with a fatal error takes no more messages: a call that has not passed its
   critical section by then never gets one to the client, and it returns that very error,
   unless the producer is closing.
   */
  lemma FatalErrorRefuses(s: State, acts: seq<Action>, c: CallId, e: int)
    requires Inv(s) && s.fatalErr == Some(e) && (c in s.calls ==> s.calls[c].Entering?)
    ensures var t := Run(s, acts);
            && c !in t.queue && c !in t.delivery && c !in t.log
            && (c in t.calls && t.calls[c].Returned? ==>
                  t.calls[c].out == ErrUnavailable(e) || t.calls[c].out == ErrClosing)
  {
    Reachable(s, acts);
    TurnedAwayAlways(s, acts, c, e);
    assert MessageOk(Run(s, acts), c);
    hide Run, Phases;
  }

  /** What a refused call told its caller is so. */
  predicate RefusalIsTrue(s: State, c: CallId) {
    c in s.calls && (s.calls[c].Leaving? || s.calls[c].Returned?) ==>
      && (s.calls[c].out.ErrUnavailable? ==> s.fatalErr == Some(s.calls[c].out.cause))
      && (s.calls[c].out.ErrClosing? ==> s.closing)
  }

  lemma RefusalStaysTrue(s: State, a: Action, c: CallId)
    requires RefusalIsTrue(s, c)
    ensures RefusalIsTrue(Exec(s, a), c)
  {
    if Enabled(s, a) && a.Publishing? {
      PublishShape(s, a.c, a.p);
      if a.c == c { OwnRefusalIsTrue(s, c, a.p); }
    }
  }

  lemma OwnRefusalIsTrue(s: State, c: CallId, p: PublishStep)
    requires RefusalIsTrue(s, c) && PublishEnabled(s, c, p)
    ensures RefusalIsTrue(PublishNext(s, c, p), c)
  {
  }

  /** ErrUnavailable carries the recorded fatal error, and ErrClosing is only said by a closing producer. */
  lemma {:induction false} RefusalsAreTrue(s: State, acts: seq<Action>, c: CallId)
    requires RefusalIsTrue(s, c)
    ensures RefusalIsTrue(Run(s, acts), c)
  {
    hide Exec, RefusalIsTrue;
    if acts != [] {
      RefusalsAreTrue(s, acts[..|acts| - 1], c);
      RefusalStaysTrue(Run(s, acts[..|acts| - 1]), acts[|acts| - 1], c);
    }
  }

  /** The error that a call received or will receive. */
  predicate Blames(s: State, c: CallId, code: int) {
    || (c in s.delivery && s.delivery[c] == Message(Some(code)))
    || (c in s.calls && HasOutcome(s.calls[c], ErrDeliver(code)))
  }

  lemma BlameStep(s: State, a: Action, c: CallId, code: int)
    requires Blames(Exec(s, a), c, code)
    ensures Blames(s, c, code) || a == Broker(c, Reject(code))
  {
    if Enabled(s, a) && a.Publishing? {
      if a.c == c { OwnBlame(s, c, a.p, code); } else { BlameElsewhere(s, a.c, a.p, c, code); }
      hide PublishNext, PublishEnabled, Blames;
    }
  }

  lemma OwnBlame(s: State, c: CallId, p: PublishStep, code: int)
    requires PublishEnabled(s, c, p) && Blames(PublishNext(s, c, p), c, code)
    ensures Blames(s, c, code)
  {
  }

  lemma BlameElsewhere(s: State, c: CallId, p: PublishStep, d: CallId, code: int)
    requires PublishEnabled(s, c, p) && d != c && Blames(PublishNext(s, c, p), d, code)
    ensures Blames(s, d, code)
  {
  }

  /** The code of a delivery error is one the broker gave for that very message. */
  lemma {:induction false} DeliveryErrorWasReported(acts: seq<Action>, c: CallId, code: int)
    requires Blames(Run(INIT, acts), c, code)
    ensures Broker(c, Reject(code)) in acts
  {
    hide Exec, Blames;
    if acts == [] {
      NobodyIsBlamed(c, code);
    } else {
      var front, a := acts[..|acts| - 1], acts[|acts| - 1];
      BlameStep(Run(INIT, front), a, c, code);
      if a != Broker(c, Reject(code)) { DeliveryErrorWasReported(front, c, code); }
      assert acts == front + [a];
    }
  }

  lemma NobodyIsBlamed(c: CallId, code: int)
    ensures !Blames(INIT, c, code)
  {
  }

  /** What the closure remembers of its Flush. */
  predicate Remembers(s: State, left: set<CallId>) {
    match s.once
    case Closing(x) => x == left
    case Recording(x) => x == left
    case Completed(x) => x == left
    case _ => false
  }

  lemma MemoryStep(s: State, a: Action, left: set<CallId>)
    requires Remembers(Exec(s, a), left)
    ensures Remembers(s, left) || (a == Shutdown(Flush) && s.once.Flushing? && s.queue == left)
  {
    if Enabled(s, a) && a.Publishing? { PublishShape(s, a.c, a.p); }
  }

  /** The number that Close reports is that of the messages still with the client when Flush returned. */
  lemma {:induction false} CloseReportsWhatFlushLeft(acts: seq<Action>, left: set<CallId>) returns (n: nat)
    requires Remembers(Run(INIT, acts), left)
    ensures n < |acts| && acts[n] == Shutdown(Flush) && Run(INIT, acts[..n]).once.Flushing?
    ensures left == Run(INIT, acts[..n]).queue
    ensures var s := Run(INIT, acts);
            s.once.Completed? ==> s.closeErr == (if left == {} then None else Some(|left|))
  {
    InitInv();
    Reachable(INIT, acts);
    hide Exec, Messages;
    var front, a := acts[..|acts| - 1], acts[|acts| - 1];
    MemoryStep(Run(INIT, front), a, left);
    if a == Shutdown(Flush) && Run(INIT, front).once.Flushing? && Run(INIT, front).queue == left {
      n := |acts| - 1;
    } else {
      n := CloseReportsWhatFlushLeft(front, left);
      assert front[..n] == acts[..n];
    }
  }

  lemma CallKept(s: State, a: Action, c: CallId)
    requires c in s.calls && (s.calls[c].Returned? || !(a.Publishing? && a.c == c))
    ensures At(Exec(s, a), c, s.calls[c])
  {
    if Enabled(s, a) && a.Publishing? {
      PublishShape(s, a.c, a.p);
    }
  }

  lemma {:induction false} ReturnedStays(s: State, acts: seq<Action>, c: CallId)
    requires c in s.calls && s.calls[c].Returned?
    ensures At(Run(s, acts), c, s.calls[c])
  {
    if acts != [] {
      var front := acts[..|acts| - 1];
      ReturnedStays(s, front, c);
      CallKept(Run(s, front), acts[|acts| - 1], c);
    }
  }

  lemma Snoc(s: State, acts: seq<Action>, a: Action)
    ensures Run(s, acts + [a]) == Exec(Run(s, acts), a)
  {
    assert (acts + [a])[..|acts|] == acts;
  }

  /** The steps of a Publish call whose context ends while its message is with the client. */
  function GivingUpSteps(c: CallId): seq<Action> {
    [Publishing(c, Arrive), Publishing(c, Admit), Publishing(c, Produce(true)), Cancel(c), Publishing(c, CtxDone),
     Publishing(c, Done)]
  }

  /** After i of these steps. */
  predicate GivingUp(s: State, c: CallId, i: nat)
    requires i <= 6
  {
    && s.clientOpen && s.log == [] && !s.closing && s.fatalErr.None?
    && (if i == 0 then s == INIT
        else At(s, c, [Entering, Admitted, Waiting, Waiting, Leaving(ErrDeliveryUnknown), Returned(ErrDeliveryUnknown)][i - 1]))
    && (i >= 3 ==> c in s.queue) && (i >= 4 ==> c in s.cancelled)
  }

  lemma GivingUpGoesOn(s: State, c: CallId, i: nat)
    requires i < 6 && GivingUp(s, c, i)
    ensures GivingUp(Exec(s, GivingUpSteps(c)[i]), c, i + 1)
  {
  }

  /** A call that gave up waiting: its context ended while the message was with the client. */
  lemma GivesUp(c: CallId) returns (acts: seq<Action>)
    ensures GivingUp(Run(INIT, acts), c, 6)
  {
    acts := GivingUpSteps(c);
    assert |acts| == 6 && acts[..6] == acts && Run(INIT, acts[..0]) == INIT;
    assert GivingUp(INIT, c, 0);
    hide GivingUp, Exec, INIT, Run;
    for i := 0 to 6
      invariant GivingUp(Run(INIT, acts[..i]), c, i)
    {
      GivingUpGoesOn(Run(INIT, acts[..i]), c, i);
      Snoc(INIT, acts[..i], acts[i]);
      assert acts[..i] + [acts[i]] == acts[..i + 1];
    }
  }

  /** The steps of a Publish call that is delivered, from its critical section on. */
  function DeliveringSteps(c: CallId): seq<Action> {
    [Publishing(c, Admit), Publishing(c, Produce(true)), Broker(c, Persist), Broker(c, Report), Publishing(c, Receive),
     Publishing(c, Done)]
  }

  /** After i of these steps. */
  predicate Delivering(s: State, c: CallId, i: nat)
    requires i <= 6
  {
    && !s.closing && s.fatalErr.None? && s.clientOpen && s.log == (if i < 3 then [] else [c])
    && At(s, c, [Entering, Admitted, Waiting, Waiting, Waiting, Leaving(Delivered), Returned(Delivered)][i])
    && (2 <= i < 4 ==> c in s.queue) && (i == 4 ==> c in s.delivery && s.delivery[c] == Message(None))
  }

  lemma DeliveringGoesOn(s: State, c: CallId, i: nat)
    requires i < 6 && Delivering(s, c, i)
    ensures Delivering(Exec(s, DeliveringSteps(c)[i]), c, i + 1)
  {
  }

  lemma Delivers(c: CallId)
    ensures Delivering(Run(Exec(INIT, Publishing(c, Arrive)), DeliveringSteps(c)), c, 6)
  {
    var s0, acts := Exec(INIT, Publishing(c, Arrive)), DeliveringSteps(c);
    assert |acts| == 6 && acts[..6] == acts && Run(s0, acts[..0]) == s0;
    assert Delivering(s0, c, 0);
    hide Delivering, Exec, INIT, Run;
    for i := 0 to 6
      invariant Delivering(Run(s0, acts[..i]), c, i)
    {
      DeliveringGoesOn(Run(s0, acts[..i]), c, i);
      Snoc(s0, acts[..i], acts[i]);
      assert acts[..i] + [acts[i]] == acts[..i + 1];
    }
  }

  /**
   ErrDeliveryUnknown alone leaves the outcome open: after the same run up to the return, the
   message may end up in the log, or be rejected and in nobody's hands.
   */
  lemma UnknownLeavesBothOpen(c: CallId) returns (logged: seq<Action>, lost: seq<Action>)
    ensures At(Run(INIT, logged), c, Returned(ErrDeliveryUnknown)) && c in Run(INIT, logged).log
    ensures At(Run(INIT, lost), c, Returned(ErrDeliveryUnknown)) && c !in Run(INIT, lost).log && c !in Run(INIT, lost).queue
  {
    var acts := GivesUp(c);
    logged := acts + [Broker(c, Persist)];
    lost := acts + [Broker(c, Reject(1))];
    Snoc(INIT, acts, Broker(c, Persist));
    Snoc(INIT, acts, Broker(c, Reject(1)));
    hide Run;
  }

  // ---- termination ----

  /** A waiting call whose select can fire. */
  predicate Ready(s: State, c: CallId) { c in s.cancelled || c in s.delivery }

  function Unproduced(s: State): set<CallId> { set c | c in s.calls && s.calls[c].Admitted? }

  function Unready(s: State): set<CallId> {
    set c | c in s.calls && (s.calls[c].Admitted? || (s.calls[c].Waiting? && !Ready(s, c)))
  }

  function Unfinished(s: State): set<CallId> {
    set c | c in s.calls && (s.calls[c].Admitted? || s.calls[c].Waiting?)
  }

  function PhaseRank(p: OncePhase): nat {
    match p
    case Idle => 6
    case SettingClosing => 5
    case Draining => 4
    case Flushing => 3
    case Closing(_) => 2
    case Recording(_) => 1
    case Completed(_) => 0
  }

  /** How many steps are left at most before the shutdown is complete. */
  function Remaining(s: State): nat {
    |Unproduced(s)| + |Unready(s)| + |Unfinished(s)| + |InFlight(s)| + PhaseRank(s.once)
  }

  /** A step that brings the shutdown closer: a protocol step, or the report or cancellation a waiting call needs. */
  predicate Helpful(s: State, a: Action) {
    && Enabled(s, a)
    && match a
       case Publishing(_, p) => !p.Arrive? && !p.Admit?
       case Shutdown(_) => true
       case Broker(c, b) => !b.Persist? && c in Unready(s) && s.calls[c].Waiting?
       case Cancel(c) => c in Unready(s) && s.calls[c].Waiting?
       case _ => false
  }

  predicate Shrinks(s: State, t: State) {
    Unproduced(t) <= Unproduced(s) && Unready(t) <= Unready(s) && Unfinished(t) <= Unfinished(s) &&
    InFlight(t) <= InFlight(s) && PhaseRank(t.once) <= PhaseRank(s.once)
  }

  lemma ShrinkingLowersRemaining(s: State, t: State)
    requires Shrinks(s, t)
    ensures Remaining(t) <= Remaining(s)
    ensures (Unproduced(t) != Unproduced(s) || Unready(t) != Unready(s) || Unfinished(t) != Unfinished(s) ||
             InFlight(t) != InFlight(s) || PhaseRank(t.once) != PhaseRank(s.once)) ==> Remaining(t) < Remaining(s)
  {
    SubsetSize(Unproduced(t), Unproduced(s));
    SubsetSize(Unready(t), Unready(s));
    SubsetSize(Unfinished(t), Unfinished(s));
    SubsetSize(InFlight(t), InFlight(s));
  }

  lemma PublishStepShrinks(s: State, c: CallId, p: PublishStep)
    requires Inv(s) && s.closing && PublishEnabled(s, c, p)
    ensures Shrinks(s, PublishNext(s, c, p))
    ensures Helpful(s, Publishing(c, p)) ==> Remaining(PublishNext(s, c, p)) < Remaining(s)
  {
    var t := PublishNext(s, c, p);
    PublishShape(s, c, p);
    match p
    case Arrive => ShrinkingLowersRemaining(s, t);
    case Admit => ShrinkingLowersRemaining(s, t);
    case Produce(_) =>
      assert c in Unproduced(s) && c !in Unproduced(t);
      ShrinkingLowersRemaining(s, t);
    case CtxDone =>
      assert c in Unfinished(s) && c !in Unfinished(t);
      ShrinkingLowersRemaining(s, t);
    case Receive =>
      assert c in Unfinished(s) && c !in Unfinished(t);
      ShrinkingLowersRemaining(s, t);
    case Done =>
      assert c in InFlight(s) && c !in InFlight(t);
      ShrinkingLowersRemaining(s, t);
  }

  lemma OtherStepShrinks(s: State, a: Action)
    requires Inv(s) && s.closing && Enabled(s, a) && !a.Publishing?
    ensures Shrinks(s, Exec(s, a))
    ensures Helpful(s, a) ==> Remaining(Exec(s, a)) < Remaining(s)
  {
    var t := Exec(s, a);
    OtherStepReadies(s, a);
    assert Unproduced(t) == Unproduced(s) && Unfinished(t) == Unfinished(s) && InFlight(t) == InFlight(s);
    ShrinkingLowersRemaining(s, t);
    hide Exec, Helpful, Unready, Remaining, PhaseRank;
  }

  lemma OtherStepReadies(s: State, a: Action)
    requires Inv(s) && s.closing && Enabled(s, a) && !a.Publishing?
    ensures var t := Exec(s, a);
            && t.calls == s.calls && Unready(t) <= Unready(s) && PhaseRank(t.once) <= PhaseRank(s.once)
            && (Helpful(s, a) ==> Unready(t) != Unready(s) || PhaseRank(t.once) != PhaseRank(s.once))
  {
    hide MessageOk, Messages;
    if Helpful(s, a) && (a.Broker? || a.Cancel?) {
      assert a.c in Unready(s) && a.c !in Unready(Exec(s, a));
    }
  }

  /** While shutting down no step of anyone adds work, and every helpful step removes some. */
  lemma StepsOnlyHelp(s: State, a: Action)
    requires Inv(s) && s.closing
    ensures Remaining(Exec(s, a)) <= Remaining(s)
    ensures Helpful(s, a) ==> Remaining(Exec(s, a)) < Remaining(s)
  {
    if Enabled(s, a) {
      if a.Publishing? {
        PublishStepShrinks(s, a.c, a.p);
        ShrinkingLowersRemaining(s, Exec(s, a));
      } else {
        OtherStepShrinks(s, a);
        ShrinkingLowersRemaining(s, Exec(s, a));
      }
    }
  }

  /**
   No deadlock: until the shutdown is complete some helpful step is enabled, and it is a step
   of the program itself unless a waiting call has neither a report nor a cancelled context.
   */
  lemma SomeStepHelps(s: State) returns (a: Action)
    requires Inv(s) && s.closing && !s.once.Completed?
    ensures Helpful(s, a)
    ensures (forall c | c in s.calls && s.calls[c].Waiting? :: Ready(s, c)) ==> a.Publishing? || a.Shutdown?
  {
    if s.once.Draining? && InFlight(s) != {} {
      var c :| c in InFlight(s);
      match s.calls[c]
      case Admitted => a := Publishing(c, Produce(true));
      case Leaving(_) => a := Publishing(c, Done);
      case Waiting =>
        a := if c in s.cancelled then Publishing(c, CtxDone)
             else if c in s.delivery then Publishing(c, Receive) else Cancel(c);
    } else {
      a := Shutdown(match s.once
                    case Draining => Drain
                    case Flushing => Flush
                    case Closing(_) => CloseClient
                    case _ => Record);
    }
  }

  function HelpfulSteps(s: State, acts: seq<Action>): nat {
    if acts == [] then 0
    else var front := acts[..|acts| - 1];
         HelpfulSteps(s, front) + (if Helpful(Run(s, front), acts[|acts| - 1]) then 1 else 0)
  }

  /** Along any run from a closing state only Remaining(s) helpful steps can happen. */
  lemma {:induction false} ShutdownIsBounded(s: State, acts: seq<Action>)
    requires Inv(s) && s.closing
    ensures Inv(Run(s, acts)) && Run(s, acts).closing
    ensures HelpfulSteps(s, acts) + Remaining(Run(s, acts)) <= Remaining(s)
  {
    if acts != [] {
      var front := acts[..|acts| - 1];
      ShutdownIsBounded(s, front);
      InvKept(Run(s, front), acts[|acts| - 1]);
      ClosingOnlyDrains(Run(s, front), acts[|acts| - 1]);
      StepsOnlyHelp(Run(s, front), acts[|acts| - 1]);
    }
  }

  /** From every closing state a run of at most Remaining(s) helpful steps completes the shutdown. */
  lemma {:induction false} ShutdownCompletes(s: State) returns (acts: seq<Action>)
    requires Inv(s) && s.closing
    ensures Run(s, acts).once.Completed? && HelpfulSteps(s, acts) == |acts| <= Remaining(s)
  {
    acts := [];
    while !Run(s, acts).once.Completed?
      invariant Inv(Run(s, acts)) && Run(s, acts).closing
      invariant HelpfulSteps(s, acts) == |acts|
      invariant |acts| + Remaining(Run(s, acts)) <= Remaining(s)
      decreases Remaining(Run(s, acts))
    {
      var t := Run(s, acts);
      var a := SomeStepHelps(t);
      InvKept(t, a);
      ClosingOnlyDrains(t, a);
      StepsOnlyHelp(t, a);
      assert (acts + [a])[..|acts|] == acts;
      acts := acts + [a];
    }
  }
}
