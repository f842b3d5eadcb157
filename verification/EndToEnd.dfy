/**
 From a signup to the inbox and back: the handlers and the producer of Delivery, the broker's
 log, and the consumer with the notification handlers, crashes included.
 */
module EndToEnd {
  import opened Wrappers
  import opened GoTime
  import opened Model
  import opened Keys
  import opened TimedStore
  import opened Tables
  import opened Service
  import opened Delivery
  import Atomic
  import C = KafkaConsumer
  import I = Interleaved
  import N = Notification
  import P = KafkaProducer

  /** The event that a SendOTP call publishes. */
  function EventOf(cfg: Config, req: Request): N.Message
    requires req.SendOTP?
  {
    N.OtpMessage(req.email, req.firstName + " " + req.lastName, req.otp, cfg.otpTTL)
  }

  /** A partition's log as the broker persisted it: record o is the message of call ids[o]. */
  ghost predicate Carries(cfg: Config, x: Whole, log: seq<N.Message>, ids: seq<P.CallId>) {
    && |log| == |ids|
    && forall o | 0 <= o < |ids| ::
         ids[o] in x.kafka.log &&
         (ids[o] in x.sys.reqs && x.sys.reqs[ids[o]].SendOTP? ==> log[o] == EventOf(cfg, x.sys.reqs[ids[o]]))
  }

  // ---- what was mailed ----

  lemma PassedWasAccepted(logs: map<C.Partition, seq<N.Message>>, cevs: seq<C.Event<N.Message>>, valid: string -> bool,
                          p: C.Partition, o: nat)
    requires C.Honours(C.Start(logs), cevs, N.Handler(valid))
    requires o < C.Offset(C.Run(C.Start(logs), cevs).stored, p)
    ensures var c := C.Run(C.Start(logs), cevs);
            && C.Handled(c.history, 0, p, o)
            && o < |C.Log(c, p)| && N.Deliverable(C.Log(c, p)[o], valid)
  {
    hide C.Run, C.Honours, N.Deliverable, N.Handler, C.Log, C.Offset;
    var c := C.Run(C.Start(logs), cevs);
    C.NoSilentSkip(logs, cevs, p);
    C.HandledIsAccepted(C.Start(logs), cevs, N.Handler(valid));
    assert C.Handled(c.history, 0, p, o);
    var i :| 0 <= i < |c.history| && c.history[i] == C.Handling(p, o, true);
    assert C.AcceptedAt(c, c.history[i], N.Handler(valid));
    AcceptedIsDeliverable(C.Log(c, p)[o], valid);
  }

  lemma AcceptedIsDeliverable(m: N.Message, valid: string -> bool)
    ensures N.Handler(valid)(m) == N.Deliverable(m, valid)
  {
    hide N.Deliverable;
  }

  /** While the session is there and the email not locked, exactly the session's own code is accepted. */
  lemma OwnCodeAccepted(cfg: Config, x: Whole, id: I.CallId, code: string, newId: string)
    requires id in x.sys.reqs && x.sys.reqs[id].SendOTP? && x.sys.reqs[id].sid != "" && code != ""
    requires StillThere(cfg, x, id)
    requires Seconds(cfg.otpTTL) <= 0 || x.sys.w.now < x.savedAt[id] + Seconds(cfg.otpTTL)
    requires CountAt(x.sys.w.store, Attempts(x.sys.reqs[id].email), x.sys.w.now) < cfg.otpMaxVerifyAttempts
    ensures var req := x.sys.reqs[id];
            Atomic.Consumes(cfg, x.sys.w, VerifyOTP(code, req.sid, newId)) <==> code == req.otp
  {
    MacAcceptsOnlyItsCode(cfg.otpHmacSecret, x.sys.reqs[id].email, x.sys.reqs[id].otp, code);
    hide hmacFor;
  }

  lemma PacketOfEvent(cfg: Config, req: Request)
    requires req.SendOTP?
    ensures N.UnmarshalOTP(EventOf(cfg, req).payload) ==
            Some(N.OTPEmailPacket(req.firstName + " " + req.lastName, req.email, req.otp, ExpiresInMinutes(cfg.otpTTL)))
  {
    N.PacketsRoundTrip(N.OTPEmailPacket(req.firstName + " " + req.lastName, req.email, req.otp, ExpiresInMinutes(cfg.otpTTL)),
                       N.VerifyEmailPacket("", "", ""));
    hide N.UnmarshalOTP, N.MarshalOTP;
  }

  /**
   End to end, for any run of handlers, producer and broker and any run of the consumer with
   any crashes: a signup's event that the stored offset of its partition has passed was
   handled successfully, which mailed the address that signed up; and unless the session was
   consumed with its own code, has timed out or its email is locked, the code in the mailed
   packet, and no other, is the one a verification of the session accepts.
   */
  lemma MailedCodeIsTheAcceptedOne(cfg: Config, x0: Whole, evs: seq<Event>,
                                   logs: map<C.Partition, seq<N.Message>>, cevs: seq<C.Event<N.Message>>,
                                   p: C.Partition, ids: seq<P.CallId>, o: nat, valid: string -> bool,
                                   code: string, newId: string)
    requires Starting(x0) && code != ""
    requires C.Honours(C.Start(logs), cevs, N.Handler(valid))
    requires Carries(cfg, Run(cfg, x0, evs), C.Log(C.Run(C.Start(logs), cevs), p), ids)
    requires o < |ids| && o < C.Offset(C.Run(C.Start(logs), cevs).stored, p)
    requires ids[o] in Run(cfg, x0, evs).sys.reqs && Run(cfg, x0, evs).sys.reqs[ids[o]].SendOTP?
    requires Run(cfg, x0, evs).sys.reqs[ids[o]].sid != ""
    ensures var x, c := Run(cfg, x0, evs), C.Run(C.Start(logs), cevs);
            var req := x.sys.reqs[ids[o]];
            var packet := N.UnmarshalOTP(C.Log(c, p)[o].payload);
            && C.Handled(c.history, 0, p, o)
            && N.ConsumeNotification(C.Log(c, p)[o], valid, true) == N.Sent(req.email)
            && packet == Some(N.OTPEmailPacket(req.firstName + " " + req.lastName, req.email, req.otp, ExpiresInMinutes(cfg.otpTTL)))
            && (|| Consumed(x, ids[o])
                || (ids[o] in x.savedAt && 0 < Seconds(cfg.otpTTL) && x.savedAt[ids[o]] + Seconds(cfg.otpTTL) <= x.sys.w.now)
                || CountAt(x.sys.w.store, Attempts(req.email), x.sys.w.now) >= cfg.otpMaxVerifyAttempts
                || (Atomic.Consumes(cfg, x.sys.w, VerifyOTP(code, req.sid, newId)) <==> code == packet.value.otp))
  {
    hide Run, Starting, C.Run, C.Honours, C.Start, C.Handled, N.UnmarshalOTP, Atomic.Consumes, Consumed,
         N.ConsumeNotification, EventOf;
    var x := Run(cfg, x0, evs);
    var id := ids[o];
    var req := x.sys.reqs[id];
    PassedWasAccepted(logs, cevs, valid, p, o);
    LoggedEventHasItsSession(cfg, x0, evs, id);
    PacketOfEvent(cfg, req);
    EventIsSentToItsAddress(cfg, req, valid);
    if !Consumed(x, id) && (Seconds(cfg.otpTTL) <= 0 || x.sys.w.now < x.savedAt[id] + Seconds(cfg.otpTTL))
       && CountAt(x.sys.w.store, Attempts(req.email), x.sys.w.now) < cfg.otpMaxVerifyAttempts {
      OwnCodeAccepted(cfg, x, id, code, newId);
    }
    hide CountAt, Seconds;
  }

  lemma EventIsSentToItsAddress(cfg: Config, req: Request, valid: string -> bool)
    requires req.SendOTP? && N.Deliverable(EventOf(cfg, req), valid)
    ensures N.ConsumeNotification(EventOf(cfg, req), valid, true) == N.Sent(req.email)
  {
    N.OtpEventDeliverableExactly(req.email, req.firstName + " " + req.lastName, req.otp, cfg.otpTTL, valid);
    hide N.ConsumeNotification;
  }

  // ---- a refused address ----

  /** In every run: a logged event of a signup whose address the consumer refuses is one that no restart gets past. */
  lemma LoggedRefusedAddressStopsThePartition(
    cfg: Config, x: Whole, logs: map<C.Partition, seq<N.Message>>, p: C.Partition, ids: seq<P.CallId>, o: nat, n: nat,
    valid: string -> bool)
    requires p in logs && Carries(cfg, x, logs[p], ids) && o < n <= |ids|
    requires ids[o] in x.sys.reqs && x.sys.reqs[ids[o]].SendOTP? && !valid(x.sys.reqs[ids[o]].email)
    ensures !C.CanReach(logs, N.Handler(valid), p, n)
  {
    var req := x.sys.reqs[ids[o]];
    N.RefusedAddressStopsThePartition(logs, valid, p, o, n, req.email, req.firstName + " " + req.lastName, req.otp, cfg.otpTTL);
    hide C.CanReach;
  }

  const START := Whole(I.Sys(World(0, map[], Db(map[], map[])), map[], map[]), P.INIT, map[])

  function Signup(email: string): Request { SendOTP("f", "l", email, "p", "p", "0", "s", NO_FAULTS, P.Delivered) }

  /** The signup is call 0, alone, at this command. */
  ghost predicate Going(x: Whole, email: string, pc: Pc) {
    && x.sys.reqs == map[0 := Signup(email)] && x.sys.pcs == map[0 := pc]
    && x.sys.w.now == 0 && x.sys.w.db == Db(map[], map[])
    && (pc.SendLookup? || pc.SendRate? || pc.SendSave? ==> Rate(email) !in x.sys.w.store)
  }

  function NextCommand(pc: Pc): Pc {
    match pc
    case SendLookup => SendRate(Bcrypt("p"))
    case SendRate(_) => SendSave(Bcrypt("p"))
    case SendSave(_) => SendIncr
    case SendIncr => SendExpire
    case _ => SendPublish
  }

  predicate Sending(pc: Pc) {
    pc.SendLookup? || pc == SendRate(Bcrypt("p")) || pc == SendSave(Bcrypt("p")) || pc.SendIncr? || pc.SendExpire? ||
    pc.SendPublish?
  }

  const GO := Handler(I.Advance(0, P.Delivered))

  lemma SignupGoesOn(cfg: Config, x: Whole, email: string, pc: Pc)
    requires Going(x, email, pc) && cfg.otpRateMaxPerHour >= 1
    requires Sending(pc) && !pc.SendPublish?
    ensures Sending(NextCommand(pc)) && Rank(NextCommand(pc)) < Rank(pc)
    ensures Going(Next(cfg, x, GO), email, NextCommand(pc)) && Next(cfg, x, GO).kafka == x.kafka
  {
    I.Dispatch(cfg, x.sys.w, Signup(email), pc, P.Delivered);
    hide I.StepWith, hmacFor;
  }

  lemma LookupIsSending()
    ensures Sending(SendLookup)
  {
  }

  lemma SignupBegins(cfg: Config, email: string)
    requires email != ""
    ensures var x := Next(cfg, START, Handler(I.Begin(0, Signup(email))));
            Going(x, email, SendLookup) && x.kafka == P.INIT
  {
  }

  lemma Snoc(cfg: Config, x: Whole, evs: seq<Event>, e: Event)
    ensures Run(cfg, x, evs + [e]) == Next(cfg, Run(cfg, x, evs), e)
  {
    assert (evs + [e])[..|evs|] == evs;
    hide Next;
  }

  lemma {:induction false} SignupSends(cfg: Config, email: string, evs: seq<Event>, pc: Pc) returns (more: seq<Event>)
    requires Sending(pc) && cfg.otpRateMaxPerHour >= 1
    requires Going(Run(cfg, START, evs), email, pc) && Run(cfg, START, evs).kafka == P.INIT
    ensures Going(Run(cfg, START, more), email, SendPublish) && Run(cfg, START, more).kafka == P.INIT
    decreases Rank(pc)
  {
    hide *;
    if pc.SendPublish? {
      more := evs;
    } else {
      SignupGoesOn(cfg, Run(cfg, START, evs), email, pc);
      Snoc(cfg, START, evs, GO);
      more := SignupSends(cfg, email, evs + [GO], NextCommand(pc));
    }
  }

  /** The signup up to its Publish call. */
  lemma SignupPublishes(cfg: Config, email: string) returns (evs: seq<Event>)
    requires email != "" && cfg.otpRateMaxPerHour >= 1
    ensures Going(Run(cfg, START, evs), email, SendPublish) && Run(cfg, START, evs).kafka == P.INIT
  {
    hide Next, Going, P.INIT, Sending;
    var begin := Handler(I.Begin(0, Signup(email)));
    SignupBegins(cfg, email);
    LookupIsSending();
    Snoc(cfg, START, [], begin);
    assert [] + [begin] == [begin] && Run(cfg, START, []) == START;
    evs := SignupSends(cfg, email, [begin], SendLookup);
  }

  function AsEvents(ps: seq<P.Action>): seq<Event> { if ps == [] then [] else AsEvents(ps[..|ps| - 1]) + [Kafka(ps[|ps| - 1])] }

  /** Producer steps without new calls are steps of the whole. */
  lemma {:induction false} ProducerRun(cfg: Config, x: Whole, ps: seq<P.Action>)
    requires forall a | a in ps :: !(a.Publishing? && a.p.Arrive?)
    ensures Run(cfg, x, AsEvents(ps)) == x.(kafka := P.Run(x.kafka, ps))
  {
    hide P.Exec;
    if ps != [] {
      var front, a := ps[..|ps| - 1], ps[|ps| - 1];
      assert a in ps && forall b | b in front :: b in ps;
      ProducerRun(cfg, x, front);
      Snoc(cfg, x, AsEvents(front), Kafka(a));
    }
  }

  lemma PublishCalled(cfg: Config, x: Whole, email: string)
    requires Going(x, email, SendPublish) && x.kafka == P.INIT
    ensures var e := CallPublish(0);
            Next(cfg, x, e) == x.(kafka := P.Exec(P.INIT, P.Publishing(0, P.Arrive)))
  {
  }

  lemma SignupAnswers(cfg: Config, x: Whole, email: string)
    requires Going(x, email, SendPublish) && P.At(x.kafka, 0, P.Returned(P.Delivered))
    ensures var t := Next(cfg, x, GO);
            t.sys.reqs == map[0 := Signup(email)] && t.sys.pcs == map[0 := Done(OtpSent("s"))] && t.kafka == x.kafka
  {
    I.Dispatch(cfg, x.sys.w, Signup(email), SendPublish, P.Delivered);
    hide I.StepWith;
  }

  lemma NoArrivals(c: P.CallId)
    ensures forall a | a in P.DeliveringSteps(c) :: !(a.Publishing? && a.p.Arrive?)
  {
  }

  /**
   And such signups happen: for every non-empty address some run answers its signup with a
   session id and has its event in the log, whatever the consumer thinks of the address; if it
   refuses it, every partition with that event is stopped there for good.
   */
  lemma SignupIsAnsweredForAnyAddress(cfg: Config, email: string, valid: string -> bool) returns (evs: seq<Event>)
    requires email != "" && cfg.otpRateMaxPerHour >= 1
    ensures Starting(START)
    ensures var x := Run(cfg, START, evs);
            && x.sys.reqs == map[0 := Signup(email)] && x.sys.pcs == map[0 := Done(OtpSent("s"))] && x.kafka.log == [0]
            && (!valid(email) ==>
                  forall logs, p, ids, o: nat, n | p in logs && Carries(cfg, x, logs[p], ids) && o < n <= |ids| && ids[o] == 0 ::
                    !C.CanReach(logs, N.Handler(valid), p, n))
  {
    StartIsStart();
    NoArrivals(0);
    hide Run, Next, Going, Starting, P.INIT, P.Run, Carries, C.CanReach, P.DeliveringSteps, P.Exec;
    var front := SignupPublishes(cfg, email);
    var x1 := Run(cfg, START, front);
    PublishCalled(cfg, x1, email);
    Snoc(cfg, START, front, CallPublish(0));
    var x2 := Run(cfg, START, front + [CallPublish(0)]);
    var steps := P.DeliveringSteps(0);
    P.Delivers(0);
    ProducerRun(cfg, x2, steps);
    RunAppend(cfg, START, front + [CallPublish(0)], AsEvents(steps));
    evs := front + [CallPublish(0)] + AsEvents(steps);
    var x3 := Run(cfg, START, evs);
    SameHandlers(x1, x3, email);
    SignupAnswers(cfg, x3, email);
    Snoc(cfg, START, evs, GO);
    evs := evs + [GO];
    var x := Run(cfg, START, evs);
    forall logs, p, ids, o: nat, n |
      !valid(email) && p in logs && Carries(cfg, x, logs[p], ids) && o < n <= |ids| && ids[o] == 0
      ensures !C.CanReach(logs, N.Handler(valid), p, n)
    {
      LoggedRefusedAddressStopsThePartition(cfg, x, logs, p, ids, o, n, valid);
    }
  }

  lemma SameHandlers(x: Whole, y: Whole, email: string)
    requires Going(x, email, SendPublish) && y.sys == x.sys
    ensures Going(y, email, SendPublish)
  {
  }

  lemma StartIsStart()
    ensures Starting(START)
  {
  }
}
