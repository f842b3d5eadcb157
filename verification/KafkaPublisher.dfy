/**
 The KafkaProducer object of utils/kafka.go with its fields. Each method is one critical
 section, client call or channel operation and performs exactly the corresponding step of
 KafkaProducer; Publish and Close run them in the source's order while other goroutines,
 the broker and cancellation act between any two of them.
 */
module KafkaPublisher {
  import opened Wrappers
  import opened KafkaProducer

  /** The steps of everyone except the Publish call c. */
  ghost predicate LeavesCall(acts: seq<Action>, c: CallId) {
    forall a | a in acts :: !(a.Publishing? && a.c == c)
  }

  /** The steps of everyone except the closure of closeOnce and the Close caller k. */
  ghost predicate LeavesShutdown(acts: seq<Action>, k: CloserId) {
    forall a | a in acts :: !a.Shutdown? && !(a.Closer? && a.k == k)
  }

  lemma {:induction false} OthersKeepCall(s: State, acts: seq<Action>, c: CallId)
    requires c in s.calls && LeavesCall(acts, c)
    ensures At(Run(s, acts), c, s.calls[c])
  {
    if acts != [] {
      var front := acts[..|acts| - 1];
      assert forall a | a in front :: a in acts;
      OthersKeepCall(s, front, c);
      CallKept(Run(s, front), acts[|acts| - 1], c);
    }
  }

  lemma OtherKeepsShutdown(s: State, a: Action, k: CloserId)
    requires !a.Shutdown? && !(a.Closer? && a.k == k) && !s.once.Idle? && k in s.closers
    ensures var t := Exec(s, a);
            t.once == s.once && t.closing == s.closing && k in t.closers && t.closers[k] == s.closers[k]
  {
    if Enabled(s, a) && a.Publishing? {
      PublishShape(s, a.c, a.p);
    }
  }

  lemma {:induction false} OthersKeepShutdown(s: State, acts: seq<Action>, k: CloserId)
    requires LeavesShutdown(acts, k) && Inv(s) && !s.once.Idle? && k in s.closers
    ensures var t := Run(s, acts);
            t.once == s.once && t.closing == s.closing && k in t.closers && t.closers[k] == s.closers[k] && Inv(t)
    ensures s.closing ==> Remaining(Run(s, acts)) <= Remaining(s)
  {
    Reachable(s, acts);
    if acts != [] {
      var front := acts[..|acts| - 1];
      assert forall a | a in front :: a in acts;
      OthersKeepShutdown(s, front, k);
      OtherKeepsShutdown(Run(s, front), acts[|acts| - 1], k);
      if s.closing { StepsOnlyHelp(Run(s, front), acts[|acts| - 1]); }
    }
  }

  /** Some run of the machine leads from s to t. */
  ghost predicate Reaches(s: State, t: State) {
    exists acts :: Run(s, acts) == t
  }

  lemma ReachesByRun(s: State, acts: seq<Action>)
    ensures Reaches(s, Run(s, acts))
  {
  }

  lemma ReachesByStep(s: State, a: Action)
    ensures Reaches(s, Exec(s, a)) && Reaches(s, s)
  {
    assert Run(s, []) == s && [a][..0] == [];
    assert Run(s, [a]) == Exec(s, a);
  }

  lemma ReachesThen(s: State, t: State, u: State)
    requires Reaches(s, t) && Reaches(t, u)
    ensures Reaches(s, u)
  {
    var xs :| Run(s, xs) == t;
    var ys :| Run(t, ys) == u;
    RunAppend(s, xs, ys);
  }

  /** What the return of a call that began after s says about the producer. */
  lemma TurnedAwayRightly(s: State, t: State, c: CallId)
    requires Inv(s) && c !in s.calls && Reaches(s, t) && c in t.calls && t.calls[c].Returned?
    ensures RefusalIsTrue(t, c)
    ensures s.fatalErr.Some? ==> t.calls[c].out == ErrUnavailable(s.fatalErr.value) || t.calls[c].out == ErrClosing
  {
    var acts :| Run(s, acts) == t;
    RefusalsAreTrue(s, acts, c);
    if s.fatalErr.Some? { FatalErrorRefuses(s, acts, c, s.fatalErr.value); }
    hide Inv, Run;
  }

  lemma SettledIsClosing(s: State)
    requires Inv(s) && !s.once.Idle? && !s.once.SettingClosing?
    ensures s.closing
  {
    hide Messages, InFlight, Unknown;
  }

  lemma StepKeepsClosers(s: State, a: Action)
    requires (a.Publishing? || a.Cancel? || a.Shutdown?) && !s.once.Idle?
    ensures var t := Exec(s, a);
            t.closers == s.closers && !t.once.Idle? && (a == Shutdown(SetClosing) ==> !t.once.SettingClosing?)
  {
    if Enabled(s, a) && a.Publishing? { PublishShape(s, a.c, a.p); }
    hide PublishNext, PublishEnabled;
  }

  class KafkaProducerObject {
    // fields of the Go struct
    var closing: bool
    var fatalErr: Option<int>
    var inFlight: int
    var once: OncePhase
    var closeErr: Option<nat>
    // its goroutines
    var calls: map<CallId, PublishPc>
    var closers: map<CloserId, CloserPc>
    var cancelled: set<CallId>
    // its client
    var clientOpen: bool
    var clientCloses: nat
    var queue: set<CallId>
    var log: seq<CallId>
    var delivery: map<CallId, Event>

    function Snapshot(): State
      reads this
    {
      State(closing, fatalErr, inFlight, once, closeErr, calls, closers, cancelled,
            clientOpen, clientCloses, queue, log, delivery)
    }

    constructor ()
      ensures Snapshot() == INIT
    {
      closing, fatalErr, inFlight, once, closeErr := false, None, 0, Idle, None;
      calls, closers, cancelled := map[], map[], {};
      clientOpen, clientCloses, queue, log, delivery := true, 0, {}, [], map[];
    }

    /** One step of a Publish call, statement by statement. */
    method PublishStepOf(c: CallId, p: PublishStep)
      requires PublishEnabled(Snapshot(), c, p)
      modifies this
      ensures Snapshot() == PublishNext(old(Snapshot()), c, p)
      ensures Reaches(old(Snapshot()), Snapshot())
    {
      ReachesByStep(Snapshot(), Publishing(c, p));
      hide Reaches;
      match p {
        case Arrive =>
          calls := calls[c := Entering];
        case Admit =>
          if closing {
            calls := calls[c := Returned(ErrClosing)];
          } else if fatalErr.Some? {
            calls := calls[c := Returned(ErrUnavailable(fatalErr.value))];
          } else {
            inFlight := inFlight + 1;
            calls := calls[c := Admitted];
          }
        case Produce(accepted) =>
          if accepted {
            queue := queue + {c};
            calls := calls[c := Waiting];
          } else {
            calls := calls[c := Leaving(ErrEnqueue)];
          }
        case CtxDone =>
          calls := calls[c := Leaving(ErrDeliveryUnknown)];
        case Receive =>
          var event := delivery[c];
          delivery := delivery - {c};
          match event {
            case OtherEvent => calls := calls[c := Leaving(ErrUnexpectedEvent)];
            case Message(Some(code)) => calls := calls[c := Leaving(ErrDeliver(code))];
            case Message(None) => calls := calls[c := Leaving(Delivered)];
          }
        case Done =>
          inFlight := inFlight - 1;
          calls := calls[c := Returned(calls[c].out)];
      }
    }

    /** One step of the closure that closeOnce runs. */
    method ShutdownStep(o: OnceStep)
      requires OnceEnabled(Snapshot(), o)
      modifies this
      ensures Snapshot() == OnceNext(old(Snapshot()), o)
      ensures Reaches(old(Snapshot()), Snapshot())
    {
      ReachesByStep(Snapshot(), Shutdown(o));
      hide Reaches;
      match o {
        case SetClosing =>
          closing := true;
          once := Draining;
        case Drain =>
          once := Flushing;
        case Flush =>
          var remaining := queue;
          once := Closing(remaining);
        case CloseClient =>
          clientOpen := false;
          clientCloses := clientCloses + 1;
          once := Recording(once.stranded);
        case Record =>
          if |once.stranded| > 0 {
            closeErr := Some(|once.stranded|);
          }
          once := Completed(once.stranded);
      }
    }

    /** One step of a Close caller outside the closure. */
    method CloserStepOf(k: CloserId, q: CloserStep)
      requires CloserEnabled(Snapshot(), k, q)
      modifies this
      ensures Snapshot() == CloserNext(old(Snapshot()), k, q)
      ensures Reaches(old(Snapshot()), Snapshot())
    {
      ReachesByStep(Snapshot(), Closer(k, q));
      hide Reaches;
      match q {
        case CallClose => closers := closers[k := Calling];
        case EnterOnce =>
          once := SettingClosing;
          closers := closers[k := InOnce];
        case CloseReturn => closers := closers[k := Back(closeErr)];
      }
    }

    /** The loop of watchEvents: the first fatal error sticks, every other event is only logged. */
    method WatchEvents(events: seq<ClientEvent>)
      requires clientOpen
      modifies this
      ensures Snapshot() == old(Snapshot()).(fatalErr := fatalErr)
      ensures old(fatalErr).Some? ==> fatalErr == old(fatalErr)
      ensures old(fatalErr).None? ==>
                if fatalErr.None? then forall e | e in events :: !(e.ClientError? && e.fatal)
                else exists i :: 0 <= i < |events| && events[i] == ClientError(fatalErr.value, true) &&
                                 forall j | 0 <= j < i :: !(events[j].ClientError? && events[j].fatal)
      ensures Snapshot() == Run(old(Snapshot()), seq(|events|, i requires 0 <= i < |events| => Watch(events[i])))
    {
      ghost var s0 := Snapshot();
      ghost var acts := seq(|events|, i requires 0 <= i < |events| => Watch(events[i]));
      for n := 0 to |events|
        invariant Snapshot() == s0.(fatalErr := fatalErr)
        invariant Snapshot() == Run(s0, acts[..n])
        invariant s0.fatalErr.Some? ==> fatalErr == s0.fatalErr
        invariant s0.fatalErr.None? ==>
                    if fatalErr.None? then forall j | 0 <= j < n :: !(events[j].ClientError? && events[j].fatal)
                    else exists i :: 0 <= i < n && events[i] == ClientError(fatalErr.value, true) &&
                                     forall j | 0 <= j < i :: !(events[j].ClientError? && events[j].fatal)
      {
        match events[n] {
          case ClientError(code, true) =>
            if fatalErr.None? {
              fatalErr := Some(code);
            }
          case _ =>
        }
        assert acts[..n + 1][..n] == acts[..n] && acts[..n + 1][n] == Watch(events[n]);
      }
      assert acts[..|events|] == acts;
    }

    method Broke(c: CallId, b: BrokerStep)
      requires BrokerEnabled(Snapshot(), c, b)
      modifies this
      ensures Snapshot() == BrokerNext(old(Snapshot()), c, b)
    {
      match b {
        case Persist => log := log + [c];
        case Report =>
          queue := queue - {c};
          delivery := delivery[c := Message(None)];
        case Reject(code) =>
          queue := queue - {c};
          delivery := delivery[c := Message(Some(code))];
      }
    }

    /** Any one step of any other goroutine, the broker, the watcher or a context. */
    method Perform(a: Action)
      modifies this
      ensures Snapshot() == Exec(old(Snapshot()), a)
    {
      if Enabled(Snapshot(), a) {
        match a {
          case Publishing(c, p) => PublishStepOf(c, p);
          case Closer(k, q) => CloserStepOf(k, q);
          case Shutdown(o) => ShutdownStep(o);
          case Broker(c, b) => Broke(c, b);
          case Cancel(c) => cancelled := cancelled + {c};
          case Watch(e) =>
            if e.ClientError? && e.fatal && fatalErr.None? {
              fatalErr := Some(e.code);
            }
        }
      }
    }

    method Others(acts: seq<Action>)
      modifies this
      ensures Snapshot() == Run(old(Snapshot()), acts)
    {
      ghost var s0 := Snapshot();
      for i := 0 to |acts|
        invariant Snapshot() == Run(s0, acts[..i])
      {
        Perform(acts[i]);
        assert acts[..i + 1][..i] == acts[..i];
      }
      assert acts[..|acts|] == acts;
    }

    /**
     Publish. The schedules say what everyone else does before the critical section, before
     Produce, during the select and before the deferred Done; preferCtx resolves a select with
     both cases ready. When the waiting schedule ends without a report the context's deadline fires.
     */
    method Publish(c: CallId, accepted: bool, preferCtx: bool,
                   arriving: seq<Action>, admitted: seq<Action>, waiting: seq<Action>, leaving: seq<Action>)
      returns (out: Outcome)
      requires Inv(Snapshot()) && c !in calls
      requires LeavesCall(arriving, c) && LeavesCall(admitted, c) && LeavesCall(waiting, c) && LeavesCall(leaving, c)
      modifies this
      ensures Inv(Snapshot()) && At(Snapshot(), c, Returned(out)) && Reaches(old(Snapshot()), Snapshot())
      ensures out == Delivered ==> c in log
      ensures out != Delivered && out != ErrDeliveryUnknown ==> c !in log && c !in queue && c !in delivery
      ensures old(closing) ==> out == ErrClosing
      ensures old(fatalErr).Some? ==> out == ErrUnavailable(old(fatalErr).value) || out == ErrClosing
      ensures out.ErrUnavailable? ==> fatalErr == Some(out.cause)
      ensures out == ErrClosing ==> closing
      ensures out != ErrUnexpectedEvent
      ensures out == ErrDeliveryUnknown ==> c in cancelled
      ensures out == ErrEnqueue ==> !accepted
      ensures !accepted ==> out.ErrClosing? || out.ErrUnavailable? || out.ErrEnqueue?
    {
      ghost var s0 := Snapshot();
      hide Reaches;
      PublishStepOf(c, Arrive);
      PublishKeepsInv(s0, c, Arrive);
      ghost var s1 := Snapshot();
      Others(arriving);
      ghost var s2 := Snapshot();
      Reachable(s1, arriving);
      OthersKeepCall(s1, arriving, c);
      ClosingStays(s1, arriving);
      ReachesByRun(s1, arriving);
      ReachesThen(s0, s1, s2);
      hide Run, PublishNext;
      out := RunPublish(c, accepted, preferCtx, admitted, waiting, leaving);
      ReachesThen(s0, s2, Snapshot());
      TurnedAwayRightly(s0, Snapshot(), c);
      assert MessageOk(Snapshot(), c);
    }

    /** Publish from its critical section on. */
    method RunPublish(c: CallId, accepted: bool, preferCtx: bool,
                      admitted: seq<Action>, waiting: seq<Action>, leaving: seq<Action>)
      returns (out: Outcome)
      requires Inv(Snapshot()) && At(Snapshot(), c, Entering)
      requires LeavesCall(admitted, c) && LeavesCall(waiting, c) && LeavesCall(leaving, c)
      modifies this
      ensures Inv(Snapshot()) && At(Snapshot(), c, Returned(out)) && Reaches(old(Snapshot()), Snapshot())
      ensures old(closing) ==> out == ErrClosing
      ensures out == ErrDeliveryUnknown ==> c in cancelled
      ensures out == ErrEnqueue ==> !accepted
      ensures !accepted ==> out.ErrClosing? || out.ErrUnavailable? || out.ErrEnqueue?
    {
      ghost var s0 := Snapshot();
      hide Reaches, Phases, Messages, MessageOk, InFlight;
      PublishKeepsInv(s0, c, Admit);
      PublishStepOf(c, Admit);
      if calls[c].Returned? {
        return calls[c].out;
      }
      ghost var s1 := Snapshot();
      Interfere(c, admitted);
      ghost var s2 := Snapshot();
      ReachesThen(s0, s1, s2);
      out := Send(c, accepted, preferCtx, waiting, leaving);
      ReachesThen(s0, s2, Snapshot());
    }

    /** From Produce to the deferred Done. */
    method Send(c: CallId, accepted: bool, preferCtx: bool, waiting: seq<Action>, leaving: seq<Action>)
      returns (out: Outcome)
      requires Inv(Snapshot()) && At(Snapshot(), c, Admitted)
      requires LeavesCall(waiting, c) && LeavesCall(leaving, c)
      modifies this
      ensures Inv(Snapshot()) && At(Snapshot(), c, Returned(out)) && Reaches(old(Snapshot()), Snapshot())
      ensures !out.ErrClosing? && !out.ErrUnavailable?
      ensures out == ErrDeliveryUnknown ==> c in cancelled
      ensures out == ErrEnqueue <==> !accepted
    {
      ghost var s0 := Snapshot();
      hide Reaches, Phases, Messages, MessageOk, InFlight, Inv;
      PublishKeepsInv(s0, c, Produce(accepted));
      PublishStepOf(c, Produce(accepted));
      if accepted {
        ghost var s1 := Snapshot();
        Select(c, preferCtx, waiting);
        ReachesThen(s0, s1, Snapshot());
      }
      ghost var s2 := Snapshot();
      Interfere(c, leaving);
      ghost var s3 := Snapshot();
      ReachesThen(s0, s2, s3);
      PublishKeepsInv(s3, c, Done);
      PublishStepOf(c, Done);
      ReachesThen(s0, s3, Snapshot());
      out := calls[c].out;
    }

    /** What others do while the call c stands still. */
    method Interfere(c: CallId, acts: seq<Action>)
      requires Inv(Snapshot()) && c in calls && LeavesCall(acts, c)
      modifies this
      ensures Inv(Snapshot()) && At(Snapshot(), c, old(calls)[c]) && old(cancelled) <= cancelled
      ensures Reaches(old(Snapshot()), Snapshot())
    {
      Reachable(Snapshot(), acts);
      OthersKeepCall(Snapshot(), acts, c);
      CancelledGrows(Snapshot(), acts);
      ReachesByRun(Snapshot(), acts);
      hide Reaches, Inv, Run;
      Others(acts);
    }

    /** The select statement: blocks until the context or the channel is ready. */
    method Select(c: CallId, preferCtx: bool, waiting: seq<Action>)
      requires Inv(Snapshot()) && At(Snapshot(), c, Waiting) && LeavesCall(waiting, c)
      modifies this
      ensures Inv(Snapshot()) && c in calls && calls[c].Leaving? && Reaches(old(Snapshot()), Snapshot())
      ensures calls[c].out == ErrDeliveryUnknown ==> c in cancelled
      ensures !calls[c].out.ErrClosing? && !calls[c].out.ErrUnavailable? && !calls[c].out.ErrEnqueue?
    {
      ghost var s0 := Snapshot();
      Block(c, waiting);
      ghost var s1 := Snapshot();
      hide Reaches, Inv;
      var step := if c in cancelled && (preferCtx || c !in delivery) then CtxDone else Receive;
      PublishKeepsInv(s1, c, step);
      PublishStepOf(c, step);
      ReachesThen(s0, s1, Snapshot());
    }

    /** Waits while neither case of the select is ready; the context ends at the latest when the schedule does. */
    method Block(c: CallId, waiting: seq<Action>)
      requires Inv(Snapshot()) && At(Snapshot(), c, Waiting) && LeavesCall(waiting, c)
      modifies this
      ensures Inv(Snapshot()) && At(Snapshot(), c, Waiting) && Reaches(old(Snapshot()), Snapshot())
      ensures c in cancelled || c in delivery
    {
      ghost var s0 := Snapshot();
      ReachesByStep(s0, Cancel(c));
      hide Reaches, Inv;
      var i := 0;
      while !(c in cancelled || c in delivery)
        invariant Inv(Snapshot()) && At(Snapshot(), c, Waiting) && 0 <= i <= |waiting| && Reaches(s0, Snapshot())
        decreases |waiting| - i, if c in cancelled then 0 else 1
      {
        ghost var s1 := Snapshot();
        if i < |waiting| {
          Interfere(c, [waiting[i]]);
          i := i + 1;
        } else {
          InvKept(s1, Cancel(c));
          ReachesByStep(s1, Cancel(c));
          Perform(Cancel(c));
        }
        ReachesThen(s0, s1, Snapshot());
      }
    }

    /**
     Close by caller k, whenever it comes: the first caller runs the closure, one that comes
     while another caller's closure runs blocks in closeOnce until that is complete. rounds[i]
     is what everyone else does at its i-th interleaving point. Both waits end because every
     round leaves the remaining work no larger and one more helpful step follows it.
     */
    method Close(k: CloserId, rounds: seq<seq<Action>>) returns (result: Option<nat>)
      requires Inv(Snapshot()) && k !in closers
      requires forall r | r in rounds :: LeavesShutdown(r, k)
      modifies this
      ensures Inv(Snapshot()) && once.Completed? && !clientOpen && clientCloses == 1 && inFlight == 0
      ensures k in closers && closers[k] == Back(result) && result == closeErr
      ensures Reaches(old(Snapshot()), Snapshot())
      ensures result.Some? ==> 0 < result.value <= |Unknown(Snapshot())|
      ensures Unknown(Snapshot()) == {} ==> result == None
    {
      ghost var s0 := Snapshot();
      hide Reaches;
      CloserKeepsInv(s0, k, CallClose);
      CloserStepOf(k, CallClose);
      ghost var s1 := Snapshot();
      if once.Idle? {
        RunOnce(k, rounds);
        ReachesThen(s0, s1, Snapshot());
      } else if !once.Completed? {
        AwaitOnce(k, rounds);
        ReachesThen(s0, s1, Snapshot());
      }
      ghost var s2 := Snapshot();
      CloserKeepsInv(s2, k, CloseReturn);
      CloserStepOf(k, CloseReturn);
      ReachesThen(s0, s2, Snapshot());
      result := closeErr;
      SubsetSize(once.stranded, Unknown(Snapshot()));
    }

    /** The closure under closeOnce. */
    method RunOnce(k: CloserId, rounds: seq<seq<Action>>)
      requires Inv(Snapshot()) && once.Idle? && k in closers && closers[k].Calling?
      requires forall r | r in rounds :: LeavesShutdown(r, k)
      modifies this
      ensures Inv(Snapshot()) && once.Completed? && k in closers && !closers[k].Back?
      ensures Reaches(old(Snapshot()), Snapshot())
    {
      ghost var s0 := Snapshot();
      hide Reaches, Inv, Run;
      CloserKeepsInv(s0, k, EnterOnce);
      CloserStepOf(k, EnterOnce);
      ghost var s1 := Snapshot();
      var i := Advance(k, SetClosing, rounds, 0);
      ghost var s2 := Snapshot();
      ReachesThen(s0, s1, s2);
      i := Wait(k, rounds, i);
      ReachesThen(s0, s2, Snapshot());
      ghost var s3 := Snapshot();
      i := Finish(k, rounds, i);
      ReachesThen(s0, s3, Snapshot());
    }

    /** closeOnce while another caller runs the closure: the steps of that closure go on until it is complete. */
    method AwaitOnce(k: CloserId, rounds: seq<seq<Action>>)
      requires Inv(Snapshot()) && !once.Idle? && k in closers && closers[k].Calling?
      requires forall r | r in rounds :: LeavesShutdown(r, k)
      modifies this
      ensures Inv(Snapshot()) && once.Completed? && k in closers && closers[k].Calling?
      ensures Reaches(old(Snapshot()), Snapshot())
    {
      ghost var s0 := Snapshot();
      ReachesByStep(s0, Shutdown(SetClosing));
      hide Reaches, Exec, Inv;
      if once.SettingClosing? {
        OthersStep(k, Shutdown(SetClosing));
      }
      SettledIsClosing(Snapshot());
      var i := 0;
      while !once.Completed?
        invariant Inv(Snapshot()) && closing && !once.Idle? && k in closers && closers[k].Calling? && Reaches(s0, Snapshot())
        decreases Remaining(Snapshot())
      {
        ghost var s1 := Snapshot();
        i := Round(k, rounds, i);
        ghost var s2 := Snapshot();
        ReachesThen(s0, s1, s2);
        if once.Completed? { break; }
        var a := HelpfulStep();
        StepsOnlyHelp(s2, a);
        ClosingOnlyDrains(s2, a);
        OthersStep(k, a);
        ReachesThen(s0, s2, Snapshot());
      }
    }

    /** One step of another goroutine that the waiting caller sees the effect of. */
    method OthersStep(k: CloserId, a: Action)
      requires Inv(Snapshot()) && !once.Idle? && k in closers && (a.Publishing? || a.Cancel? || a.Shutdown?)
      modifies this
      ensures Snapshot() == Exec(old(Snapshot()), a) && Inv(Snapshot()) && !once.Idle?
      ensures k in closers && closers[k] == old(closers)[k] && Reaches(old(Snapshot()), Snapshot())
      ensures a == Shutdown(SetClosing) ==> !once.SettingClosing?
    {
      InvKept(Snapshot(), a);
      ReachesByStep(Snapshot(), a);
      StepKeepsClosers(Snapshot(), a);
      hide Reaches, Inv, Exec;
      Perform(a);
    }

    method HelpfulStep() returns (a: Action)
      requires Inv(Snapshot()) && closing && !once.Completed?
      ensures Helpful(Snapshot(), a) && (a.Publishing? || a.Cancel? || a.Shutdown?)
    {
      if once.Draining? && inFlight != 0 {
        a := HelpfulChoice();
      } else {
        a := Shutdown(match once
                      case Draining => Drain
                      case Flushing => Flush
                      case Closing(_) => CloseClient
                      case _ => Record);
      }
    }

    /** The closure after inFlight.Wait(). */
    method Finish(k: CloserId, rounds: seq<seq<Action>>, start: nat) returns (i: nat)
      requires Inv(Snapshot()) && once.Draining? && inFlight == 0 && k in closers && !closers[k].Back?
      requires forall r | r in rounds :: LeavesShutdown(r, k)
      modifies this
      ensures Inv(Snapshot()) && once.Completed? && k in closers && !closers[k].Back?
      ensures Reaches(old(Snapshot()), Snapshot())
    {
      ghost var s0 := Snapshot();
      hide Reaches, Inv, Run;
      i := Advance(k, Drain, rounds, start);
      ghost var s1 := Snapshot();
      i := Advance(k, Flush, rounds, i);
      ghost var s2 := Snapshot();
      ReachesThen(s0, s1, s2);
      i := Advance(k, CloseClient, rounds, i);
      ghost var s3 := Snapshot();
      ReachesThen(s0, s2, s3);
      i := Advance(k, Record, rounds, i);
      ReachesThen(s0, s3, Snapshot());
    }

    /** inFlight.Wait(). */
    method Wait(k: CloserId, rounds: seq<seq<Action>>, start: nat) returns (i: nat)
      requires Inv(Snapshot()) && once.Draining? && k in closers
      requires forall r | r in rounds :: LeavesShutdown(r, k)
      modifies this
      ensures Inv(Snapshot()) && once.Draining? && k in closers && closers[k] == old(closers)[k] && inFlight == 0
      ensures Reaches(old(Snapshot()), Snapshot())
    {
      ghost var s0 := Snapshot();
      ReachesByStep(s0, Shutdown(Drain));
      hide Reaches, Exec;
      i := start;
      while inFlight != 0
        invariant Inv(Snapshot()) && once.Draining? && k in closers && closers[k] == old(closers)[k]
        invariant Reaches(s0, Snapshot())
        decreases Remaining(Snapshot())
      {
        ghost var s1 := Snapshot();
        i := Round(k, rounds, i);
        ghost var s2 := Snapshot();
        ReachesThen(s0, s1, s2);
        if inFlight == 0 { break; }
        var a := HelpfulChoice();
        StepsOnlyHelp(s2, a);
        InvKept(s2, a);
        OtherKeepsShutdown(s2, a, k);
        ReachesByStep(s2, a);
        Perform(a);
        ReachesThen(s0, s2, Snapshot());
      }
    }

    /** One statement of the closure, then whatever the others do. */
    method Advance(k: CloserId, o: OnceStep, rounds: seq<seq<Action>>, i: nat) returns (j: nat)
      requires Inv(Snapshot()) && OnceEnabled(Snapshot(), o) && k in closers
      requires forall r | r in rounds :: LeavesShutdown(r, k)
      modifies this
      ensures Inv(Snapshot()) && once == OnceNext(old(Snapshot()), o).once
      ensures o.Drain? ==> inFlight == 0
      ensures k in closers && closers[k] == old(closers)[k]
      ensures Reaches(old(Snapshot()), Snapshot())
    {
      ghost var s0 := Snapshot();
      hide Reaches, Run;
      OnceKeepsInv(s0, o);
      ShutdownStep(o);
      ghost var s1 := Snapshot();
      j := Round(k, rounds, i);
      ReachesThen(s0, s1, Snapshot());
    }

    /** A step of some call in flight, or the end of its context. */
    method HelpfulChoice() returns (a: Action)
      requires Inv(Snapshot()) && once.Draining? && inFlight != 0
      ensures Helpful(Snapshot(), a) && (a.Publishing? || a.Cancel?)
    {
      var active := set c | c in calls && Counting(calls[c]);
      assert active == InFlight(Snapshot());
      var c :| c in active;
      match calls[c] {
        case Admitted => a := Publishing(c, Produce(true));
        case Leaving(_) => a := Publishing(c, Done);
        case Waiting =>
          a := if c in cancelled then Publishing(c, CtxDone)
               else if c in delivery then Publishing(c, Receive) else Cancel(c);
      }
    }

    method Round(k: CloserId, rounds: seq<seq<Action>>, i: nat) returns (j: nat)
      requires Inv(Snapshot()) && !once.Idle? && k in closers
      requires forall r | r in rounds :: LeavesShutdown(r, k)
      modifies this
      ensures Inv(Snapshot()) && once == old(once) && closing == old(closing)
      ensures k in closers && closers[k] == old(closers)[k]
      ensures old(closing) ==> Remaining(Snapshot()) <= old(Remaining(Snapshot()))
      ensures Reaches(old(Snapshot()), Snapshot())
    {
      ReachesByStep(Snapshot(), Shutdown(Drain));
      hide Reaches, Exec;
      if i < |rounds| {
        OthersKeepShutdown(Snapshot(), rounds[i], k);
        ReachesByRun(Snapshot(), rounds[i]);
        Others(rounds[i]);
      }
      j := i + 1;
    }
  }

  lemma {:induction false} CancelledGrows(s: State, acts: seq<Action>)
    ensures s.cancelled <= Run(s, acts).cancelled
  {
    hide Exec;
    if acts != [] {
      var front := acts[..|acts| - 1];
      CancelledGrows(s, front);
      CancelledKept(Run(s, front), acts[|acts| - 1]);
    }
  }

  lemma CancelledKept(s: State, a: Action)
    ensures s.cancelled <= Exec(s, a).cancelled
  {
    if Enabled(s, a) && a.Publishing? { PublishShape(s, a.c, a.p); }
    hide PublishEnabled, PublishNext;
  }

  lemma {:induction false} ClosingStays(s: State, acts: seq<Action>)
    requires Inv(s)
    ensures s.closing ==> Run(s, acts).closing
  {
    hide Exec, Inv;
    if acts != [] && s.closing {
      var front := acts[..|acts| - 1];
      ClosingStays(s, front);
      Reachable(s, front);
      ClosingOnlyDrains(Run(s, front), acts[|acts| - 1]);
    }
  }
}
