/**
 The whole pipeline in one machine: the handlers and the producer of Delivery, the broker's
 partitions, and the consumer with the notification handlers. The broker's Persist is what
 appends to a partition, and ids remembers whose message each record is.
 */
module Pipeline {
  import opened Wrappers
  import opened Model
  import opened Keys
  import opened GoTime
  import opened TimedStore
  import opened Service
  import opened EndToEnd
  import Atomic
  import C = KafkaConsumer
  import D = Delivery
  import I = Interleaved
  import N = Notification
  import P = KafkaProducer

  datatype State = State(x: D.Whole, c: C.State<N.Message>, ids: map<C.Partition, seq<P.CallId>>)

  /** If e persists a message, the broker puts it on partition p; other is the message of a call that is no signup. */
  datatype Step =
    | Backend(e: D.Event, p: C.Partition, other: N.Message)
    | Consuming(polled: C.Event<N.Message>)

  function Ids(s: State, p: C.Partition): seq<P.CallId> { if p in s.ids then s.ids[p] else [] }

  predicate Persists(x: D.Whole, e: D.Event) { e.Kafka? && e.p.Broker? && e.p.b.Persist? && P.Enabled(x.kafka, e.p) }

  function MessageOf(cfg: Config, x: D.Whole, id: P.CallId, other: N.Message): N.Message {
    if id in x.sys.reqs && x.sys.reqs[id].SendOTP? then EventOf(cfg, x.sys.reqs[id]) else other
  }

  /** The consumer succeeds only on messages its handlers accept, and its partitions grow by Persist alone. */
  ghost function Next(cfg: Config, valid: string -> bool, s: State, step: Step): State {
    match step
    case Backend(e, p, other) =>
      var t := s.(x := D.Next(cfg, s.x, e));
      if !Persists(s.x, e) then t
      else t.(c := C.Next(s.c, C.Append(p, MessageOf(cfg, s.x, e.p.c, other))), ids := s.ids[p := Ids(s, p) + [e.p.c]])
    case Consuming(e) =>
      if e.Append? || !C.HonoursStep(s.c, e, N.Handler(valid)) then s else s.(c := C.Next(s.c, e))
  }

  ghost function Run(cfg: Config, valid: string -> bool, s: State, steps: seq<Step>): State {
    if steps == [] then s else Next(cfg, valid, Run(cfg, valid, s, steps[..|steps| - 1]), steps[|steps| - 1])
  }

  ghost predicate Starting(s: State) { D.Starting(s.x) && s.c == C.Start(map[]) && s.ids == map[] }

  predicate Record(s: State, p: C.Partition, o: nat, id: P.CallId) { o < |Ids(s, p)| && Ids(s, p)[o] == id }

  /** Every partition carries what the broker persisted there, and each persisted message is exactly one record. */
  ghost predicate Inv(cfg: Config, s: State) {
    && D.WholeInv(cfg, s.x)
    && (forall p :: Carries(cfg, s.x, C.Log(s.c, p), Ids(s, p)))
    && (forall id | id in s.x.kafka.log :: exists p, o :: Record(s, p, o, id))
    && (forall p, q, o, r, id | Record(s, p, o, id) && Record(s, q, r, id) :: p == q && o == r)
  }

  // ---- one step ----

  lemma LogStep(k: P.State, a: P.Action)
    ensures P.Exec(k, a).log == if a.Broker? && a.b.Persist? && P.Enabled(k, a) then k.log + [a.c] else k.log
  {
    if P.Enabled(k, a) && a.Publishing? { P.PublishShape(k, a.c, a.p); }
  }

  lemma EventOnLog(cfg: Config, x: D.Whole, e: D.Event)
    ensures D.Next(cfg, x, e).kafka.log == if Persists(x, e) then x.kafka.log + [e.p.c] else x.kafka.log
    ensures Persists(x, e) ==> e.p.c !in x.kafka.log
  {
    if D.Happens(x, e) && !e.Handler? { LogStep(x.kafka, D.AsProducerAction(e)); }
    hide P.Exec, I.Exec, I.Enabled;
  }

  /** A call whose message is persisted is nobody's id to begin with any more. */
  lemma LoggedRequestStays(cfg: Config, x: D.Whole, e: D.Event, id: P.CallId)
    requires D.WholeInv(cfg, x) && id in x.kafka.log
    ensures var reqs := D.Next(cfg, x, e).sys.reqs;
            (id in reqs <==> id in x.sys.reqs) && (id in reqs ==> reqs[id] == x.sys.reqs[id])
  {
    assert P.MessageOk(x.kafka, id);
    hide I.Inv, D.Tracks, P.Phases, P.Exec, I.StepWith, Fits, I.FreshRequest;
  }

  lemma CarriesKept(cfg: Config, x: D.Whole, e: D.Event, log: seq<N.Message>, ids: seq<P.CallId>)
    requires D.WholeInv(cfg, x) && Carries(cfg, x, log, ids)
    ensures Carries(cfg, D.Next(cfg, x, e), log, ids)
  {
    hide D.WholeInv, D.Next, Persists, EventOf;
    EventOnLog(cfg, x, e);
    forall o | 0 <= o < |ids| ensures o < |log| && ids[o] in D.Next(cfg, x, e).kafka.log
      && (ids[o] in D.Next(cfg, x, e).sys.reqs && D.Next(cfg, x, e).sys.reqs[ids[o]].SendOTP? ==>
            log[o] == EventOf(cfg, D.Next(cfg, x, e).sys.reqs[ids[o]])) {
      LoggedRequestStays(cfg, x, e, ids[o]);
    }
  }

  lemma CarriesOneMore(cfg: Config, x: D.Whole, e: D.Event, log: seq<N.Message>, ids: seq<P.CallId>, other: N.Message)
    requires D.WholeInv(cfg, x) && Carries(cfg, x, log, ids) && Persists(x, e)
    ensures Carries(cfg, D.Next(cfg, x, e), log + [MessageOf(cfg, x, e.p.c, other)], ids + [e.p.c])
  {
    CarriesKept(cfg, x, e, log, ids);
    EventOnLog(cfg, x, e);
    assert D.Next(cfg, x, e).sys == x.sys;
    hide D.WholeInv, D.Next, EventOf, Persists;
  }

  lemma StepKeepsCarrying(cfg: Config, valid: string -> bool, s: State, step: Step, p: C.Partition)
    requires Inv(cfg, s)
    ensures var t := Next(cfg, valid, s, step); Carries(cfg, t.x, C.Log(t.c, p), Ids(t, p))
  {
    hide D.WholeInv, D.Next, Carries, Persists, MessageOf, C.HonoursStep;
    assert Carries(cfg, s.x, C.Log(s.c, p), Ids(s, p));
    if step.Backend? {
      CarriesKept(cfg, s.x, step.e, C.Log(s.c, p), Ids(s, p));
      if Persists(s.x, step.e) && p == step.p {
        CarriesOneMore(cfg, s.x, step.e, C.Log(s.c, p), Ids(s, p), step.other);
      }
    }
  }

  lemma StepKeepsRecords(cfg: Config, valid: string -> bool, s: State, step: Step, p: C.Partition, o: nat, id: P.CallId)
    ensures var t := Next(cfg, valid, s, step);
            Record(t, p, o, id) <==>
            || Record(s, p, o, id)
            || (step.Backend? && Persists(s.x, step.e) && p == step.p && o == |Ids(s, p)| && id == step.e.p.c)
  {
    hide D.Next, MessageOf, C.HonoursStep, C.Next;
  }

  lemma RecordIsLogged(cfg: Config, s: State, p: C.Partition, o: nat, id: P.CallId)
    requires Inv(cfg, s) && Record(s, p, o, id)
    ensures id in s.x.kafka.log
  {
    assert Carries(cfg, s.x, C.Log(s.c, p), Ids(s, p));
    hide D.WholeInv, EventOf;
  }

  lemma InvKept(cfg: Config, valid: string -> bool, s: State, step: Step)
    requires Inv(cfg, s)
    ensures Inv(cfg, Next(cfg, valid, s, step))
  {
    var t := Next(cfg, valid, s, step);
    WholeStep(cfg, valid, s, step);
    hide D.WholeInv, Carries, Record, Next, Persists;
    forall p ensures Carries(cfg, t.x, C.Log(t.c, p), Ids(t, p)) { StepKeepsCarrying(cfg, valid, s, step, p); }
    forall id | id in t.x.kafka.log ensures exists p, o :: Record(t, p, o, id) {
      if id in s.x.kafka.log {
        var p, o :| Record(s, p, o, id);
        StepKeepsRecords(cfg, valid, s, step, p, o, id);
      } else {
        StepKeepsRecords(cfg, valid, s, step, step.p, |Ids(s, step.p)|, id);
      }
    }
    forall p, q, o, r, id | Record(t, p, o, id) && Record(t, q, r, id) ensures p == q && o == r {
      StepKeepsRecords(cfg, valid, s, step, p, o, id);
      StepKeepsRecords(cfg, valid, s, step, q, r, id);
      if Record(s, p, o, id) { RecordIsLogged(cfg, s, p, o, id); }
      if Record(s, q, r, id) { RecordIsLogged(cfg, s, q, r, id); }
    }
  }

  lemma WholeStep(cfg: Config, valid: string -> bool, s: State, step: Step)
    requires D.WholeInv(cfg, s.x)
    ensures var t := Next(cfg, valid, s, step);
            && D.WholeInv(cfg, t.x)
            && t.x.kafka.log ==
                 (if step.Backend? && Persists(s.x, step.e) then s.x.kafka.log + [step.e.p.c] else s.x.kafka.log)
            && (step.Backend? && Persists(s.x, step.e) ==> step.e.p.c !in s.x.kafka.log)
  {
    hide D.WholeInv, D.Next, Persists, C.Next, C.HonoursStep, MessageOf;
    if step.Backend? {
      D.WholeKept(cfg, s.x, step.e);
      EventOnLog(cfg, s.x, step.e);
    }
  }

  // ---- whole runs ----

  lemma {:induction false} Reachable(cfg: Config, valid: string -> bool, s: State, steps: seq<Step>)
    requires Starting(s)
    ensures Inv(cfg, Run(cfg, valid, s, steps))
  {
    if steps == [] {
      D.WholeReachable(cfg, s.x, []);
    } else {
      Reachable(cfg, valid, s, steps[..|steps| - 1]);
      InvKept(cfg, valid, Run(cfg, valid, s, steps[..|steps| - 1]), steps[|steps| - 1]);
    }
    hide D.WholeInv, Next, Inv;
  }

  lemma {:induction false} RunAppend(cfg: Config, valid: string -> bool, s: State, xs: seq<Step>, ys: seq<Step>)
    ensures Run(cfg, valid, s, xs + ys) == Run(cfg, valid, Run(cfg, valid, s, xs), ys)
  {
    if ys == [] {
      assert xs + ys == xs;
    } else {
      RunAppend(cfg, valid, s, xs, ys[..|ys| - 1]);
      assert (xs + ys)[..|xs + ys| - 1] == xs + ys[..|ys| - 1];
    }
    hide Next;
  }

  /** Whatever happens in between, each persisted message is exactly one record of one partition. */
  lemma EveryEventIsOneRecord(cfg: Config, valid: string -> bool, s0: State, steps: seq<Step>, id: P.CallId)
    requires Starting(s0)
    ensures var s := Run(cfg, valid, s0, steps);
            && (id in s.x.kafka.log <==> exists p, o :: Record(s, p, o, id))
            && (forall p, q, o, r | Record(s, p, o, id) && Record(s, q, r, id) :: p == q && o == r)
  {
    hide Run, Starting, Record;
    var s := Run(cfg, valid, s0, steps);
    Reachable(cfg, valid, s0, steps);
    if p, o :| Record(s, p, o, id) { RecordIsLogged(cfg, s, p, o, id); }
    hide D.WholeInv, Carries;
  }

  /** What one step is for the consumer alone. */
  function ConsumerStep(cfg: Config, s: State, step: Step): C.Event<N.Message> {
    match step
    case Backend(e, p, other) =>
      if Persists(s.x, e) then C.Append(p, MessageOf(cfg, s.x, e.p.c, other)) else C.NoMessage
    case Consuming(e) => e
  }

  /** A run of the pipeline is a run of handlers, producer and broker beside a run of the consumer. */
  lemma {:induction false} Halves(cfg: Config, valid: string -> bool, s: State, steps: seq<Step>)
    returns (evs: seq<D.Event>, cevs: seq<C.Event<N.Message>>)
    ensures Run(cfg, valid, s, steps).x == D.Run(cfg, s.x, evs)
    ensures Run(cfg, valid, s, steps).c == C.Run(s.c, cevs) && C.Honours(s.c, cevs, N.Handler(valid))
  {
    hide D.Next, C.Next, C.HonoursStep, C.Honours, Persists, MessageOf;
    if steps == [] {
      evs, cevs := [], [];
      NothingHonours(s.c, N.Handler(valid));
    } else {
      var front, step := steps[..|steps| - 1], steps[|steps| - 1];
      var t := Run(cfg, valid, s, front);
      evs, cevs := Halves(cfg, valid, s, front);
      if step.Backend? {
        Snoc(cfg, s.x, evs, step.e);
        evs := evs + [step.e];
      }
      if Run(cfg, valid, s, steps).c != t.c {
        var e := ConsumerStep(cfg, t, step);
        C.HonoursGrows(s.c, cevs, e, N.Handler(valid));
        AppendHonours(t.c, e, N.Handler(valid));
        cevs := cevs + [e];
      }
    }
  }

  lemma NothingHonours<T>(c: C.State<T>, accepts: T -> bool)
    ensures C.Honours(c, [], accepts) && C.Run(c, []) == c
  {
  }

  lemma AppendHonours<T>(c: C.State<T>, e: C.Event<T>, accepts: T -> bool)
    ensures e.Append? ==> C.HonoursStep(c, e, accepts)
  {
  }

  /**
   At every moment of every run of the pipeline, crashes included: a signup's record that the
   stored offset of its partition has passed was mailed to the address that signed up; and
   unless the session was consumed with its own code, has timed out or its email is locked,
   the code in the mailed packet, and no other, is the one a verification accepts at that moment.
   */
  lemma MailedCodeIsTheAcceptedOne(cfg: Config, valid: string -> bool, s0: State, steps: seq<Step>,
                                   p: C.Partition, o: nat, id: P.CallId, code: string, newId: string)
    requires Starting(s0) && code != ""
    requires var s := Run(cfg, valid, s0, steps);
             && o < C.Offset(s.c.stored, p) && Record(s, p, o, id)
             && id in s.x.sys.reqs && s.x.sys.reqs[id].SendOTP? && s.x.sys.reqs[id].sid != ""
    ensures var s := Run(cfg, valid, s0, steps);
            var req, w := s.x.sys.reqs[id], s.x.sys.w;
            && C.Handled(s.c.history, 0, p, o) && o < |C.Log(s.c, p)|
            && var packet := N.UnmarshalOTP(C.Log(s.c, p)[o].payload);
            && N.ConsumeNotification(C.Log(s.c, p)[o], valid, true) == N.Sent(req.email)
            && packet == Some(N.OTPEmailPacket(req.firstName + " " + req.lastName, req.email, req.otp, ExpiresInMinutes(cfg.otpTTL)))
            && (|| D.Consumed(s.x, id)
                || (id in s.x.savedAt && 0 < Seconds(cfg.otpTTL) && s.x.savedAt[id] + Seconds(cfg.otpTTL) <= w.now)
                || CountAt(w.store, Attempts(req.email), w.now) >= cfg.otpMaxVerifyAttempts
                || (Atomic.Consumes(cfg, w, VerifyOTP(code, req.sid, newId)) <==> code == packet.value.otp))
  {
    hide Run, D.Run, C.Run, C.Honours, C.Handled, C.Log, D.Starting, D.WholeInv, D.Consumed, CountAt, Atomic.Consumes,
         N.UnmarshalOTP, N.ConsumeNotification;
    var s := Run(cfg, valid, s0, steps);
    Reachable(cfg, valid, s0, steps);
    assert Carries(cfg, s.x, C.Log(s.c, p), Ids(s, p));
    var evs, cevs := Halves(cfg, valid, s0, steps);
    EndToEnd.MailedCodeIsTheAcceptedOne(cfg, s0.x, evs, map[], cevs, p, Ids(s, p), o, valid, code, newId);
  }

  // ---- what gets through ----

  function AsSteps(cevs: seq<C.Event<N.Message>>): seq<Step> {
    if cevs == [] then [] else AsSteps(cevs[..|cevs| - 1]) + [Consuming(cevs[|cevs| - 1])]
  }

  /** Consumer events that honour the handlers are steps of the pipeline. */
  lemma {:induction false} ConsumerRun(cfg: Config, valid: string -> bool, s: State, cevs: seq<C.Event<N.Message>>)
    requires C.Honours(s.c, cevs, N.Handler(valid)) && forall e | e in cevs :: !e.Append?
    ensures Run(cfg, valid, s, AsSteps(cevs)) == s.(c := C.Run(s.c, cevs))
  {
    hide C.Next, C.Honours, C.HonoursStep;
    if cevs != [] {
      var front, e := cevs[..|cevs| - 1], cevs[|cevs| - 1];
      assert cevs == front + [e] && e in cevs;
      C.HonoursGrows(s.c, front, e, N.Handler(valid));
      ConsumerRun(cfg, valid, s, front);
      assert AsSteps(cevs)[..|front|] == AsSteps(front) by { StepCount(front); }
      StepCount(front);
    }
  }

  lemma StepCount(cevs: seq<C.Event<N.Message>>)
    ensures |AsSteps(cevs)| == |cevs|
  {
  }

  /** Some continuation, by anyone, stores an offset above o. */
  ghost predicate CanPass(cfg: Config, valid: string -> bool, s: State, p: C.Partition, o: nat) {
    exists more :: o < C.Offset(Run(cfg, valid, s, more).c.stored, p)
  }

  ghost predicate AllDeliverable(valid: string -> bool, log: seq<N.Message>, n: nat)
    requires n <= |log|
  {
    forall k | 0 <= k < n :: N.Deliverable(log[k], valid)
  }

  /**
   From every reachable state: whatever handlers, producers, broker and consumer go on to do,
   a record can be passed if and only if it and every record before it is deliverable.
   */
  lemma PassesExactlyTheDeliverable(cfg: Config, valid: string -> bool, s0: State, steps: seq<Step>,
                                    p: C.Partition, o: nat)
    requires Starting(s0) && o < |C.Log(Run(cfg, valid, s0, steps).c, p)|
    ensures var s := Run(cfg, valid, s0, steps);
            CanPass(cfg, valid, s, p, o) <==> AllDeliverable(valid, C.Log(s.c, p), o + 1)
  {
    hide Run;
    var s := Run(cfg, valid, s0, steps);
    if more :| o < C.Offset(Run(cfg, valid, s, more).c.stored, p) {
      RunAppend(cfg, valid, s0, steps, more);
      PassedAreDeliverable(cfg, valid, s0, steps, more, p, o);
    }
    if AllDeliverable(valid, C.Log(s.c, p), o + 1) { DeliverableCanPass(cfg, valid, s0, steps, p, o); }
    hide AllDeliverable, CanPass;
  }

  /** A signup's mail gets through exactly when its address, code and TTL are fine and nothing before it is stuck. */
  lemma SignupPassesExactly(cfg: Config, valid: string -> bool, s0: State, steps: seq<Step>,
                            p: C.Partition, o: nat, id: P.CallId)
    requires Starting(s0)
    requires var s := Run(cfg, valid, s0, steps); Record(s, p, o, id) && id in s.x.sys.reqs && s.x.sys.reqs[id].SendOTP?
    ensures var s := Run(cfg, valid, s0, steps);
            var req := s.x.sys.reqs[id];
            && o < |C.Log(s.c, p)|
            && (CanPass(cfg, valid, s, p, o) <==>
                  && AllDeliverable(valid, C.Log(s.c, p), o)
                  && valid(req.email) && req.otp != "" && 0 < Seconds(cfg.otpTTL) <= TWO_TO_63 - MINUTE)
  {
    hide Run, CanPass, Seconds, D.WholeInv, D.Starting, N.Deliverable, C.Log;
    var s := Run(cfg, valid, s0, steps);
    var req := s.x.sys.reqs[id];
    Reachable(cfg, valid, s0, steps);
    assert Carries(cfg, s.x, C.Log(s.c, p), Ids(s, p));
    PassesExactlyTheDeliverable(cfg, valid, s0, steps, p, o);
    N.OtpEventDeliverableExactly(req.email, req.firstName + " " + req.lastName, req.otp, cfg.otpTTL, valid);
  }

  lemma PassedAreDeliverable(cfg: Config, valid: string -> bool, s0: State, steps: seq<Step>, more: seq<Step>,
                             p: C.Partition, o: nat)
    requires Starting(s0) && o < |C.Log(Run(cfg, valid, s0, steps).c, p)|
    requires o < C.Offset(Run(cfg, valid, s0, steps + more).c.stored, p)
    ensures AllDeliverable(valid, C.Log(Run(cfg, valid, s0, steps).c, p), o + 1)
  {
    hide Run, C.Run, C.Honours, C.Handled, N.Deliverable, C.Log, D.Run, D.Starting;
    var s, t := Run(cfg, valid, s0, steps), Run(cfg, valid, s0, steps + more);
    RunAppend(cfg, valid, s0, steps, more);
    var evs, cevs := Halves(cfg, valid, s0, steps + more);
    var evs', cevs' := Halves(cfg, valid, s, more);
    C.LogGrows(s.c, cevs', p);
    forall k | 0 <= k < o + 1 ensures N.Deliverable(C.Log(s.c, p)[k], valid) {
      PassedWasAccepted(map[], cevs, valid, p, k);
    }
  }

  lemma DeliverableCanPass(cfg: Config, valid: string -> bool, s0: State, steps: seq<Step>, p: C.Partition, o: nat)
    requires Starting(s0) && o < |C.Log(Run(cfg, valid, s0, steps).c, p)|
    requires AllDeliverable(valid, C.Log(Run(cfg, valid, s0, steps).c, p), o + 1)
    ensures CanPass(cfg, valid, Run(cfg, valid, s0, steps), p, o)
  {
    hide Run, C.Run, C.Honours, N.Deliverable, C.Log, C.InvAt, D.Run, D.Starting;
    var s := Run(cfg, valid, s0, steps);
    var evs, cevs := Halves(cfg, valid, s0, steps);
    assert C.InvAt(C.Start<N.Message>(map[]), p) by { EmptyIsFine(p); }
    C.Reachable(C.Start(map[]), cevs, p);
    if C.Offset(s.c.stored, p) <= o {
      forall k | 0 <= k < o + 1 ensures N.Handler(valid)(C.Log(s.c, p)[k]) {
        AcceptedIsDeliverable(C.Log(s.c, p)[k], valid);
      }
      var more := C.CatchesUp(s.c, N.Handler(valid), p, o + 1);
      ConsumerRun(cfg, valid, s, more);
      assert o < C.Offset(Run(cfg, valid, s, AsSteps(more)).c.stored, p);
    } else {
      assert Run(cfg, valid, s, []) == s by { NoSteps(cfg, valid, s); }
      assert o < C.Offset(Run(cfg, valid, s, []).c.stored, p);
    }
  }

  lemma NoSteps(cfg: Config, valid: string -> bool, s: State)
    ensures Run(cfg, valid, s, []) == s
  {
  }

  lemma EmptyIsFine(p: C.Partition)
    ensures C.InvAt(C.Start<N.Message>(map[]), p)
  {
  }
}
