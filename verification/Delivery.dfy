/**
 The handlers composed with the Kafka producer protocol: any interleaving of handler
 commands, publishers, closers, the broker, cancellations and time. A SendOTP call is the
 Publish call of the same id, and what it is told is what that Publish call returned.
 */
module Delivery {
  import opened Wrappers
  import opened GoTime
  import opened Model
  import opened Keys
  import opened TimedStore
  import opened Tables
  import opened Service
  import opened Interleaved
  import GoErrors
  import P = KafkaProducer

  datatype Whole = Whole(sys: Sys, kafka: P.State, savedAt: map<CallId, int>)

  datatype Event =
    | Handler(a: Action)
    | CallPublish(id: CallId)        // the call reaches kafkaClient.Publish
    | Kafka(p: P.Action)

  ghost predicate Happens(x: Whole, e: Event) {
    match e
    case Handler(a) =>
      && Enabled(x.sys, a)
      && (a.Begin? ==> a.id !in x.kafka.calls)
      && (a.Advance? && x.sys.pcs[a.id].SendPublish? ==> P.At(x.kafka, a.id, P.Returned(a.published)))
    case CallPublish(id) =>
      id in x.sys.pcs && id in x.sys.reqs && x.sys.reqs[id].SendOTP? && x.sys.pcs[id].SendPublish? && id !in x.kafka.calls
    case Kafka(p) => p.Publishing? && p.p.Arrive? ==> p.c !in x.sys.reqs
  }

  /** savedAt remembers when a call stored its session. */
  ghost function Next(cfg: Config, x: Whole, e: Event): Whole {
    if !Happens(x, e) then x else
    match e
    case Handler(a) =>
      x.(sys := Exec(cfg, x.sys, a),
         savedAt := if a.Advance? && x.sys.pcs[a.id].SendSave? then x.savedAt[a.id := x.sys.w.now] else x.savedAt)
    case CallPublish(id) => x.(kafka := P.Exec(x.kafka, P.Publishing(id, P.Arrive)))
    case Kafka(p) => x.(kafka := P.Exec(x.kafka, p))
  }

  ghost function Run(cfg: Config, x: Whole, evs: seq<Event>): Whole {
    if evs == [] then x else Next(cfg, Run(cfg, x, evs[..|evs| - 1]), evs[|evs| - 1])
  }

  ghost predicate Starting(x: Whole) { Initial(x.sys) && x.kafka == P.INIT }

  // ---- what a SendOTP call may rely on ----

  predicate Definite(out: P.Outcome) { out != P.Delivered && out != P.ErrDeliveryUnknown }

  /** The session of the call, exactly as stored. */
  ghost predicate SessionKept(cfg: Config, x: Whole, id: CallId)
    requires id in x.sys.reqs && x.sys.reqs[id].SendOTP?
  {
    var req := x.sys.reqs[id];
    && id in x.savedAt && Session(req.sid) in x.sys.w.store
    && x.sys.w.store[Session(req.sid)] ==
         Entry(OtpSession(DataOf(cfg, req)), if Seconds(cfg.otpTTL) > 0 then Some(x.savedAt[id] + Seconds(cfg.otpTTL)) else None)
  }

  /** A VerifyOTP call with the session's id and code is past the point where it consumed the session. */
  ghost predicate Consumed(x: Whole, id: CallId)
    requires id in x.sys.reqs && x.sys.reqs[id].SendOTP?
  {
    exists v | v in x.sys.reqs && v in x.sys.pcs :: ConsumedBy(x.sys.reqs[id], x.sys.reqs[v], x.sys.pcs[v])
  }

  predicate ConsumedBy(send: Request, verify: Request, pc: Pc)
    requires send.SendOTP?
  {
    && verify.VerifyOTP? && verify.otpSid == send.sid && verify.code == send.otp
    && (pc.VerifyCreate? || (pc.Done? && (pc.response.Created? || pc.response.CreateFailed?)))
  }

  predicate HasStored(pc: Pc) {
    pc.SendIncr? || pc.SendExpire? || pc.SendPublish? || pc.SendRemove? ||
    (pc.Done? && (pc.response.OtpSent? || pc.response.StillProcessing?))
  }

  predicate Answered(pc: Pc) {
    pc.Done? && (pc.response.OtpSent? || pc.response.StillProcessing? || pc.response.QueueFailed?)
  }

  /** What the call's command says about its Publish call. */
  predicate Told(pc: Pc, k: P.State, id: CallId) {
    && (id in k.calls ==> pc.SendPublish? || pc.SendRemove? || Answered(pc))
    && (pc.Done? && pc.response.OtpSent? ==> P.At(k, id, P.Returned(P.Delivered)))
    && (pc.Done? && pc.response.StillProcessing? ==> P.At(k, id, P.Returned(P.ErrDeliveryUnknown)))
    && (pc.SendRemove? || (pc.Done? && pc.response.QueueFailed?) ==>
          id in k.calls && k.calls[id].Returned? && Definite(k.calls[id].out))
  }

  /** The session is as stored, or a verification with its own code consumed it. */
  ghost predicate Accounted(cfg: Config, x: Whole, id: CallId)
    requires id in x.sys.reqs && x.sys.reqs[id].SendOTP?
  {
    SessionKept(cfg, x, id) || Consumed(x, id)
  }

  ghost predicate Tracks(cfg: Config, x: Whole, id: CallId) {
    id in x.sys.reqs && id in x.sys.pcs ==>
      && (!x.sys.reqs[id].SendOTP? ==> id !in x.kafka.calls)
      && (x.sys.reqs[id].SendOTP? ==>
            Told(x.sys.pcs[id], x.kafka, id) &&
            (HasStored(x.sys.pcs[id]) ==> Accounted(cfg, x, id)))
  }

  ghost predicate WholeInv(cfg: Config, x: Whole) {
    Interleaved.Inv(cfg, x.sys) && P.Inv(x.kafka) && forall id :: Tracks(cfg, x, id)
  }

  // ---- the session entry under one command ----

  /** The commands that write or delete the session sid. */
  predicate TouchesSession(req: Request, pc: Pc, sid: string) {
    || (req.SendOTP? && (pc.SendSave? || pc.SendRemove?) && req.sid == sid)
    || (req.VerifyOTP? && pc.VerifyConsume? && req.otpSid == sid)
  }

  lemma CommandOnSession(cfg: Config, w: World, req: Request, pc: Pc, published: P.Outcome, sid: string)
    requires Fits(req, pc) && !pc.Done? && !TouchesSession(req, pc, sid)
    ensures SameEntry(w.store, StepWith(cfg, w, req, pc, published).0.store, Session(sid))
  {
    assert Session(sid) !in Footprint(req, pc);
    hide StepWith, Fits;
    CommandFootprint(cfg, w, req, pc, published, Session(sid));
  }

  // ---- the producer's steps ----

  lemma ProducerKeepsTold(pc: Pc, k: P.State, a: P.Action, id: CallId)
    requires Told(pc, k, id)
    requires a.Publishing? && a.p.Arrive? && a.c == id ==> pc.SendPublish?
    ensures Told(pc, P.Exec(k, a), id)
  {
    if id in k.calls && k.calls[id].Returned? { P.CallKept(k, a, id); }
    if id !in k.calls && !(a.Publishing? && a.p.Arrive? && a.c == id) { OnlyArriveAdds(k, a, id); }
    hide P.Exec;
  }

  lemma OnlyArriveAdds(k: P.State, a: P.Action, id: CallId)
    requires id !in k.calls && !(a.Publishing? && a.p.Arrive? && a.c == id)
    ensures id !in P.Exec(k, a).calls
  {
    if P.Enabled(k, a) && a.Publishing? { P.PublishShape(k, a.c, a.p); }
  }

  lemma ProducerTracks(cfg: Config, x: Whole, a: P.Action, id: CallId)
    requires Tracks(cfg, x, id)
    requires a.Publishing? && a.p.Arrive? && a.c == id && id in x.sys.reqs ==>
               id in x.sys.pcs && x.sys.reqs[id].SendOTP? && x.sys.pcs[id].SendPublish?
    ensures Tracks(cfg, x.(kafka := P.Exec(x.kafka, a)), id)
  {
    hide P.Exec, Accounted, Told, HasStored;
    if id in x.sys.reqs && id in x.sys.pcs {
      if x.sys.reqs[id].SendOTP? {
        ProducerKeepsTold(x.sys.pcs[id], x.kafka, a, id);
        AccountsAgree(cfg, x, x.(kafka := P.Exec(x.kafka, a)), id);
      } else {
        OnlyArriveAdds(x.kafka, a, id);
      }
    }
  }

  function AsProducerAction(e: Event): P.Action
    requires !e.Handler?
  {
    if e.Kafka? then e.p else P.Publishing(e.id, P.Arrive)
  }

  lemma ProducerEvent(cfg: Config, x: Whole, e: Event)
    requires WholeInv(cfg, x) && Happens(x, e) && !e.Handler?
    ensures WholeInv(cfg, Next(cfg, x, e))
  {
    hide P.Inv, P.Exec, Tracks, Interleaved.Inv, Fits;
    var a := AsProducerAction(e);
    P.InvKept(x.kafka, a);
    assert Next(cfg, x, e) == x.(kafka := P.Exec(x.kafka, a));
    forall id ensures Tracks(cfg, x.(kafka := P.Exec(x.kafka, a)), id) {
      ProducerTracks(cfg, x, a, id);
    }
  }

  lemma AccountsAgree(cfg: Config, x: Whole, y: Whole, id: CallId)
    requires x.sys == y.sys && x.savedAt == y.savedAt && id in x.sys.reqs && x.sys.reqs[id].SendOTP?
    ensures Accounted(cfg, x, id) == Accounted(cfg, y, id)
  {
  }

  // ---- the handlers' steps ----

  /** Nobody takes back a consumption. */
  lemma ConsumedStays(cfg: Config, x: Whole, a: Action, id: CallId)
    requires Happens(x, Handler(a)) && id in x.sys.reqs && x.sys.reqs[id].SendOTP? && Consumed(x, id)
    ensures Consumed(Next(cfg, x, Handler(a)), id)
  {
    var x' := Next(cfg, x, Handler(a));
    var v :| v in x.sys.reqs && v in x.sys.pcs && ConsumedBy(x.sys.reqs[id], x.sys.reqs[v], x.sys.pcs[v]);
    assert x'.sys.reqs[id] == x.sys.reqs[id];
    assert v in x'.sys.reqs && v in x'.sys.pcs && ConsumedBy(x'.sys.reqs[id], x'.sys.reqs[v], x'.sys.pcs[v]);
  }

  /** A verification that deletes the session brought the session's own code. */
  lemma ConsumingCode(cfg: Config, s: Sys, v: CallId, id: CallId)
    requires Interleaved.Inv(cfg, s) && id in s.reqs && s.reqs[id].SendOTP?
    requires v in s.reqs && v in s.pcs && s.reqs[v].VerifyOTP? && s.pcs[v].VerifyConsume? && s.reqs[v].otpSid == s.reqs[id].sid
    ensures s.reqs[v].code == s.reqs[id].otp
  {
    assert PcOk(cfg, s.w.db, s.reqs, s.reqs[v], s.pcs[v]);
    hide CallsOk, StoreOk, Consistent;
    var meta := s.pcs[v].meta;
    var t :| t in s.reqs && s.reqs[t].SendOTP? && s.reqs[t].sid == s.reqs[v].otpSid && s.reqs[t].otp == s.reqs[v].code &&
             meta == MetaOf(s.reqs[t], Bcrypt(s.reqs[t].password));
    assert t == id;
  }

  lemma OnlyOwnerTouches(s: Sys, t: CallId, id: CallId)
    requires SidsDistinct(s) && id in s.reqs && s.reqs[id].SendOTP? && t in s.reqs && t in s.pcs && t != id
    requires TouchesSession(s.reqs[t], s.pcs[t], s.reqs[id].sid)
    ensures s.reqs[t].VerifyOTP? && s.pcs[t].VerifyConsume? && s.reqs[t].otpSid == s.reqs[id].sid
  {
  }

  lemma AdvanceShape(cfg: Config, x: Whole, a: Action)
    requires Happens(x, Handler(a)) && a.Advance?
    ensures var x', r := Next(cfg, x, Handler(a)), StepWith(cfg, x.sys.w, x.sys.reqs[a.id], x.sys.pcs[a.id], a.published);
            && x'.sys.w == r.0 && x'.sys.reqs == x.sys.reqs && x'.sys.pcs == x.sys.pcs[a.id := r.1] && x'.kafka == x.kafka
            && (forall t | t in x.savedAt && (t == a.id ==> !x.sys.pcs[t].SendSave?) ::
                  t in x'.savedAt && x'.savedAt[t] == x.savedAt[t])
  {
    hide StepWith, Fits;
  }

  lemma ConsumedNow(cfg: Config, x: Whole, a: Action, id: CallId)
    requires Interleaved.Inv(cfg, x.sys) && Happens(x, Handler(a)) && a.Advance?
    requires id in x.sys.reqs && x.sys.reqs[id].SendOTP?
    requires x.sys.reqs[a.id].VerifyOTP? && x.sys.pcs[a.id].VerifyConsume? && x.sys.reqs[a.id].otpSid == x.sys.reqs[id].sid
    ensures Consumed(Next(cfg, x, Handler(a)), id)
  {
    hide Interleaved.Inv, StepWith, Fits, Next;
    var x' := Next(cfg, x, Handler(a));
    AdvanceShape(cfg, x, a);
    ConsumeGoesOn(cfg, x.sys.w, x.sys.reqs[a.id], x.sys.pcs[a.id], a.published);
    ConsumingCode(cfg, x.sys, a.id, id);
    assert ConsumedBy(x'.sys.reqs[id], x'.sys.reqs[a.id], x'.sys.pcs[a.id]);
  }

  lemma ConsumeGoesOn(cfg: Config, w: World, req: Request, pc: Pc, published: P.Outcome)
    requires req.VerifyOTP? && pc.VerifyConsume?
    ensures Fits(req, pc) && StepWith(cfg, w, req, pc, published).1.VerifyCreate?
  {
  }

  lemma UntouchedIsKept(cfg: Config, x: Whole, a: Action, id: CallId)
    requires Happens(x, Handler(a)) && a.Advance? && !x.sys.pcs[a.id].Done?
    requires id in x.sys.reqs && x.sys.reqs[id].SendOTP? && SessionKept(cfg, x, id)
    requires a.id == id ==> !x.sys.pcs[id].SendSave?
    requires !TouchesSession(x.sys.reqs[a.id], x.sys.pcs[a.id], x.sys.reqs[id].sid)
    ensures SessionKept(cfg, Next(cfg, x, Handler(a)), id)
  {
    AdvanceShape(cfg, x, a);
    CommandOnSession(cfg, x.sys.w, x.sys.reqs[a.id], x.sys.pcs[a.id], a.published, x.sys.reqs[id].sid);
    hide StepWith, Fits, TouchesSession, Next;
  }

  /** A stored session stays as it is until a verification consumes it or its own call removes it. */
  lemma KeptOrConsumed(cfg: Config, x: Whole, a: Action, id: CallId)
    requires Interleaved.Inv(cfg, x.sys) && Happens(x, Handler(a)) && a.Advance?
    requires id in x.sys.reqs && x.sys.reqs[id].SendOTP? && SessionKept(cfg, x, id)
    requires a.id == id ==> !x.sys.pcs[id].SendSave? && !x.sys.pcs[id].SendRemove?
    ensures Accounted(cfg, Next(cfg, x, Handler(a)), id)
  {
    hide StepWith, Fits, SessionKept, StoreOk, CallsOk, Consistent, CreationsDistinct, Consumed;
    var s := x.sys;
    if s.pcs[a.id].Done? {
      DoneStays(cfg, s, a.id, a.published);
    } else if TouchesSession(s.reqs[a.id], s.pcs[a.id], s.reqs[id].sid) {
      OnlyOwnerTouches(s, a.id, id);
      ConsumedNow(cfg, x, a, id);
    } else {
      UntouchedIsKept(cfg, x, a, id);
    }
  }

  lemma AccountedStays(cfg: Config, x: Whole, a: Action, id: CallId)
    requires Interleaved.Inv(cfg, x.sys) && Happens(x, Handler(a))
    requires id in x.sys.reqs && x.sys.reqs[id].SendOTP? && Accounted(cfg, x, id)
    requires a.Advance? && a.id == id ==> !x.sys.pcs[id].SendSave? && !x.sys.pcs[id].SendRemove?
    ensures id in Next(cfg, x, Handler(a)).sys.reqs && Next(cfg, x, Handler(a)).sys.reqs[id] == x.sys.reqs[id]
    ensures Accounted(cfg, Next(cfg, x, Handler(a)), id)
  {
    hide Interleaved.Inv, StepWith, Fits, Consumed;
    if Consumed(x, id) { ConsumedStays(cfg, x, a, id); }
    else if a.Advance? { KeptOrConsumed(cfg, x, a, id); }
  }

  /** What one command of a SendOTP call does to what it was told. */
  lemma OwnCommandTold(cfg: Config, w: World, req: Request, pc: Pc, published: P.Outcome, k: P.State, id: CallId)
    requires req.SendOTP? && SendPc(pc) && Told(pc, k, id)
    requires pc.SendPublish? ==> P.At(k, id, P.Returned(published))
    ensures Told(StepSend(cfg, w, if pc.SendPublish? then req.(publish := published) else req, pc).1, k, id)
  {
    if pc.SendPublish? && !published.Delivered? { GoErrors.ErrorsIsDeliveryUnknown(published); }
    hide GoErrors.Is, GoErrors.SendPayloadError, UserByEmail;
  }

  lemma OwnCommandStores(cfg: Config, w: World, req: Request, pc: Pc)
    requires req.SendOTP? && SendPc(pc)
    ensures var (w', pc') := StepSend(cfg, w, req, pc);
            HasStored(pc') && !pc.SendSave? ==> HasStored(pc) && !pc.SendRemove?
    ensures var (w', pc') := StepSend(cfg, w, req, pc);
            pc.SendSave? && pc.hash == Bcrypt(req.password) && HasStored(pc') ==>
              w'.store == Set(w.store, Session(req.sid), OtpSession(DataOf(cfg, req)), w.now, Seconds(cfg.otpTTL))
  {
    hide UserByEmail, Set, Incr, Expire, Del;
  }

  lemma HashOfSave(cfg: Config, s: Sys, id: CallId)
    requires Interleaved.Inv(cfg, s) && id in s.pcs && s.pcs[id].SendSave?
    ensures id in s.reqs && s.pcs[id].hash == Bcrypt(s.reqs[id].password)
  {
    assert PcOk(cfg, s.w.db, s.reqs, s.reqs[id], s.pcs[id]);
  }

  lemma SaveStores(cfg: Config, x: Whole, a: Action)
    requires Interleaved.Inv(cfg, x.sys) && Happens(x, Handler(a)) && a.Advance?
    requires x.sys.reqs[a.id].SendOTP? && x.sys.pcs[a.id].SendSave?
    ensures HasStored(Next(cfg, x, Handler(a)).sys.pcs[a.id]) ==> SessionKept(cfg, Next(cfg, x, Handler(a)), a.id)
  {
    hide Interleaved.Inv, StepWith, StepSend, StepVerify, StepSignIn, StepRotate, StepCache, Fits, HasStored, DataOf;
    HashOfSave(cfg, x.sys, a.id);
    AdvanceShape(cfg, x, a);
    Dispatch(cfg, x.sys.w, x.sys.reqs[a.id], x.sys.pcs[a.id], a.published);
    OwnCommandStores(cfg, x.sys.w, x.sys.reqs[a.id], x.sys.pcs[a.id]);
  }

  /** The command of the call itself. */
  lemma OwnTracks(cfg: Config, x: Whole, a: Action)
    requires Interleaved.Inv(cfg, x.sys) && Happens(x, Handler(a)) && a.Advance? && !x.sys.pcs[a.id].Done?
    requires Tracks(cfg, x, a.id) && x.sys.reqs[a.id].SendOTP?
    ensures Tracks(cfg, Next(cfg, x, Handler(a)), a.id)
  {
    var req, pc := x.sys.reqs[a.id], x.sys.pcs[a.id];
    hide Interleaved.Inv, Told, HasStored, Accounted, StepSend, StepVerify, StepSignIn, StepRotate, StepCache;
    AdvanceShape(cfg, x, a);
    Dispatch(cfg, x.sys.w, req, pc, a.published);
    FitsSend(req, pc);
    OwnCommandTold(cfg, x.sys.w, req, pc, a.published, x.kafka, a.id);
    hide StepWith, Fits;
    if HasStored(Next(cfg, x, Handler(a)).sys.pcs[a.id]) {
      if pc.SendSave? {
        SaveStores(cfg, x, a);
        KeptIsAccounted(cfg, Next(cfg, x, Handler(a)), a.id);
      } else {
        OwnCommandStores(cfg, x.sys.w, if pc.SendPublish? then req.(publish := a.published) else req, pc);
        AccountedStays(cfg, x, a, a.id);
      }
    }
  }

  lemma FitsSend(req: Request, pc: Pc)
    requires req.SendOTP? && Fits(req, pc) && !pc.Done?
    ensures SendPc(pc)
  {
  }

  lemma KeptIsAccounted(cfg: Config, x: Whole, id: CallId)
    requires id in x.sys.reqs && x.sys.reqs[id].SendOTP? && SessionKept(cfg, x, id)
    ensures Accounted(cfg, x, id)
  {
  }

  /** Every other call, whatever the handler action. */
  lemma OtherTracks(cfg: Config, x: Whole, a: Action, id: CallId)
    requires Interleaved.Inv(cfg, x.sys) && Happens(x, Handler(a)) && Tracks(cfg, x, id)
    requires id in x.sys.reqs && id in x.sys.pcs && !(a.Advance? && a.id == id && !x.sys.pcs[id].Done? && x.sys.reqs[id].SendOTP?)
    ensures Tracks(cfg, Next(cfg, x, Handler(a)), id)
  {
    hide Interleaved.Inv, Told, HasStored, Accounted, StepWith, Fits, FreshRequest;
    if a.Advance? && x.sys.pcs[a.id].Done? { DoneStays(cfg, x.sys, a.id, a.published); }
    if x.sys.reqs[id].SendOTP? && HasStored(x.sys.pcs[id]) {
      AccountedStays(cfg, x, a, id);
    }
  }

  lemma NewTracks(cfg: Config, x: Whole, a: Action)
    requires Happens(x, Handler(a)) && a.Begin?
    ensures Tracks(cfg, Next(cfg, x, Handler(a)), a.id)
  {
    hide Accounted;
  }

  lemma HandlerEvent(cfg: Config, x: Whole, a: Action)
    requires WholeInv(cfg, x) && Happens(x, Handler(a))
    ensures WholeInv(cfg, Next(cfg, x, Handler(a)))
  {
    hide P.Inv, Tracks, Interleaved.Inv, Fits, StepWith, FreshRequest;
    Interleaved.InvKept(cfg, x.sys, a);
    var x' := Next(cfg, x, Handler(a));
    forall id ensures Tracks(cfg, x', id) {
      if id in x.sys.reqs && id in x.sys.pcs {
        if a.Advance? && a.id == id && !x.sys.pcs[id].Done? && x.sys.reqs[id].SendOTP? { OwnTracks(cfg, x, a); }
        else { OtherTracks(cfg, x, a, id); }
      } else if a.Begin? && a.id == id {
        NewTracks(cfg, x, a);
      } else {
        AbsentTracks(cfg, x', id);
      }
    }
  }

  lemma AbsentTracks(cfg: Config, x: Whole, id: CallId)
    requires !(id in x.sys.reqs && id in x.sys.pcs)
    ensures Tracks(cfg, x, id)
  {
  }

  // ---- whole runs ----

  lemma WholeKept(cfg: Config, x: Whole, e: Event)
    requires WholeInv(cfg, x)
    ensures WholeInv(cfg, Next(cfg, x, e))
  {
    if Happens(x, e) {
      if e.Handler? { HandlerEvent(cfg, x, e.a); } else { ProducerEvent(cfg, x, e); }
    }
    hide *;
  }

  lemma {:induction false} WholeReachable(cfg: Config, x0: Whole, evs: seq<Event>)
    requires Starting(x0)
    ensures WholeInv(cfg, Run(cfg, x0, evs))
  {
    if evs == [] {
      InitialInv(cfg, x0.sys);
      P.InitInv();
    } else {
      WholeReachable(cfg, x0, evs[..|evs| - 1]);
      WholeKept(cfg, Run(cfg, x0, evs[..|evs| - 1]), evs[|evs| - 1]);
    }
  }

  lemma {:induction false} RunAppend(cfg: Config, x: Whole, xs: seq<Event>, ys: seq<Event>)
    ensures Run(cfg, x, xs + ys) == Run(cfg, Run(cfg, x, xs), ys)
  {
    if ys == [] {
      assert xs + ys == xs;
    } else {
      RunAppend(cfg, x, xs, ys[..|ys| - 1]);
      assert (xs + ys)[..|xs + ys| - 1] == xs + ys[..|ys| - 1];
    }
  }

  lemma TracksOf(cfg: Config, x: Whole, id: CallId)
    requires WholeInv(cfg, x) && id in x.sys.reqs
    ensures Tracks(cfg, x, id) && P.MessageOk(x.kafka, id) && id in x.sys.pcs
  {
    hide Told, Accounted, P.MessageOk, P.Phases, StoreOk, PcOk;
  }

  /** A call whose event is persisted was answered OtpSent or StillProcessing, or waits for Publish. */
  lemma LoggedCallHasStored(cfg: Config, x: Whole, id: CallId)
    requires Tracks(cfg, x, id) && P.MessageOk(x.kafka, id) && id in x.sys.reqs && id in x.sys.pcs && id in x.kafka.log
    ensures x.sys.reqs[id].SendOTP? && HasStored(x.sys.pcs[id]) && !x.sys.pcs[id].SendRemove?
  {
    hide Accounted;
  }

  /** The session reads back as stored until its lifetime is over. */
  ghost predicate StillThere(cfg: Config, x: Whole, id: CallId)
    requires id in x.sys.reqs && x.sys.reqs[id].SendOTP?
  {
    var req, w := x.sys.reqs[id], x.sys.w;
    && id in x.savedAt
    && (Seconds(cfg.otpTTL) <= 0 || w.now < x.savedAt[id] + Seconds(cfg.otpTTL) ==>
          Get(w.store, Session(req.sid), w.now) == Some(OtpSession(DataOf(cfg, req))))
    && (0 < Seconds(cfg.otpTTL) && x.savedAt[id] + Seconds(cfg.otpTTL) <= w.now ==>
          Get(w.store, Session(req.sid), w.now) == None)
  }

  /**
   Whatever handlers, publishers, closers, broker, cancellations and time do: an OTP event that
   is in the Kafka log has its session in Redis, exactly as it was stored, until the session
   timed out, unless a verification with that session's own code consumed it.
   */
  lemma LoggedEventHasItsSession(cfg: Config, x0: Whole, evs: seq<Event>, id: CallId)
    requires Starting(x0)
    requires var x := Run(cfg, x0, evs); id in x.sys.reqs && id in x.kafka.log
    ensures var x := Run(cfg, x0, evs);
            x.sys.reqs[id].SendOTP? && (StillThere(cfg, x, id) || Consumed(x, id))
  {
    hide WholeInv, HasStored, Told, P.MessageOk, Consumed, Run;
    var x := Run(cfg, x0, evs);
    WholeReachable(cfg, x0, evs);
    TracksOf(cfg, x, id);
    LoggedCallHasStored(cfg, x, id);
    if SessionKept(cfg, x, id) { KeptIsThere(cfg, x, id); }
  }

  lemma KeptIsThere(cfg: Config, x: Whole, id: CallId)
    requires id in x.sys.reqs && x.sys.reqs[id].SendOTP? && SessionKept(cfg, x, id)
    ensures StillThere(cfg, x, id)
  {
  }

  // ---- sessions removed by the publish-failure path ----

  /** The publish-failure path has decided to remove the session, or has removed it. */
  predicate GaveUp(pc: Pc) { pc.SendRemove? || pc == Done(QueueFailed) }

  ghost predicate RemovedOk(s: Sys, id: CallId) {
    id in s.reqs && id in s.pcs && s.reqs[id].SendOTP? && !s.reqs[id].faults.remove && s.pcs[id] == Done(QueueFailed) ==>
      Session(s.reqs[id].sid) !in s.w.store
  }

  lemma OwnCommandRemoves(cfg: Config, w: World, req: Request, pc: Pc)
    requires req.SendOTP? && SendPc(pc)
    ensures var (w', pc') := StepSend(cfg, w, req, pc);
            && (pc' == Done(QueueFailed) ==> pc.SendRemove? && (!req.faults.remove ==> Session(req.sid) !in w'.store))
            && (pc.SendRemove? ==> pc' == Done(QueueFailed))
  {
    hide UserByEmail;
  }

  lemma OtherCommandLeavesAbsent(cfg: Config, s: Sys, t: CallId, published: P.Outcome, id: CallId)
    requires SidsDistinct(s) && id in s.reqs && s.reqs[id].SendOTP? && Session(s.reqs[id].sid) !in s.w.store
    requires t != id && t in s.reqs && t in s.pcs && Fits(s.reqs[t], s.pcs[t]) && !s.pcs[t].Done?
    ensures Session(s.reqs[id].sid) !in StepWith(cfg, s.w, s.reqs[t], s.pcs[t], published).0.store
  {
    hide StepWith, StepSend, StepVerify, StepSignIn, StepRotate, StepCache, Fits;
    var sid := s.reqs[id].sid;
    if TouchesSession(s.reqs[t], s.pcs[t], sid) {
      OnlyOwnerTouches(s, t, id);
      Dispatch(cfg, s.w, s.reqs[t], s.pcs[t], published);
      ConsumeDeletes(cfg, s.w, s.reqs[t], s.pcs[t]);
    } else {
      CommandOnSession(cfg, s.w, s.reqs[t], s.pcs[t], published, sid);
    }
  }

  lemma ConsumeDeletes(cfg: Config, w: World, req: Request, pc: Pc)
    requires req.VerifyOTP? && pc.VerifyConsume?
    ensures Session(req.otpSid) !in StepVerify(cfg, w, req, pc).0.store
  {
  }

  lemma OwnStepRemoves(cfg: Config, s: Sys, id: CallId, published: P.Outcome)
    requires Enabled(s, Advance(id, published)) && s.reqs[id].SendOTP? && !s.pcs[id].Done?
    ensures var s' := Exec(cfg, s, Advance(id, published));
            RemovedOk(s', id) && (GaveUp(s.pcs[id]) ==> GaveUp(s'.pcs[id]))
  {
    hide StepWith, StepSend, StepVerify, StepSignIn, StepRotate, StepCache, Fits;
    var req, pc := s.reqs[id], s.pcs[id];
    FitsSend(req, pc);
    Dispatch(cfg, s.w, req, pc, published);
    OwnCommandRemoves(cfg, s.w, if pc.SendPublish? then req.(publish := published) else req, pc);
  }

  lemma ActionKeepsRemoved(cfg: Config, s: Sys, a: Action, id: CallId)
    requires SidsDistinct(s) && s.pcs.Keys == s.reqs.Keys && RemovedOk(s, id)
    ensures RemovedOk(Exec(cfg, s, a), id)
    ensures id in s.pcs && s.reqs[id].SendOTP? && GaveUp(s.pcs[id]) ==>
              var s' := Exec(cfg, s, a); id in s'.pcs && id in s'.reqs && s'.reqs[id] == s.reqs[id] && GaveUp(s'.pcs[id])
  {
    hide StepWith, Fits, SidsDistinct, FreshRequest;
    if Enabled(s, a) && a.Advance? {
      if s.pcs[a.id].Done? { DoneStays(cfg, s, a.id, a.published); }
      else if a.id == id && s.reqs[id].SendOTP? { OwnStepRemoves(cfg, s, id, a.published); }
      else if id in s.reqs && s.reqs[id].SendOTP? && Session(s.reqs[id].sid) !in s.w.store {
        OtherCommandLeavesAbsent(cfg, s, a.id, a.published, id);
      }
    }
  }

  lemma EventKeepsRemoved(cfg: Config, x: Whole, e: Event, id: CallId)
    requires WholeInv(cfg, x) && RemovedOk(x.sys, id)
    ensures RemovedOk(Next(cfg, x, e).sys, id)
    ensures id in x.sys.pcs && id in x.sys.reqs && x.sys.reqs[id].SendOTP? && GaveUp(x.sys.pcs[id]) ==>
              var s' := Next(cfg, x, e).sys;
              id in s'.pcs && id in s'.reqs && s'.reqs[id] == x.sys.reqs[id] && GaveUp(s'.pcs[id])
  {
    hide P.Inv, P.Exec, Tracks, StoreOk, PcOk, Exec, Enabled, SidsDistinct, GaveUp, RemovedOk;
    if e.Handler? { ActionKeepsRemoved(cfg, x.sys, e.a, id); }
  }

  lemma {:induction false} RemovedReachable(cfg: Config, x0: Whole, evs: seq<Event>, id: CallId)
    requires Starting(x0)
    ensures RemovedOk(Run(cfg, x0, evs).sys, id)
  {
    if evs != [] {
      var front := evs[..|evs| - 1];
      RemovedReachable(cfg, x0, front, id);
      WholeReachable(cfg, x0, front);
      EventKeepsRemoved(cfg, Run(cfg, x0, front), evs[|evs| - 1], id);
    }
  }

  lemma {:induction false} GaveUpStays(cfg: Config, x0: Whole, evs: seq<Event>, later: seq<Event>, id: CallId)
    requires Starting(x0)
    requires var s := Run(cfg, x0, evs).sys; id in s.pcs && id in s.reqs && s.reqs[id].SendOTP? && GaveUp(s.pcs[id])
    ensures var s' := Run(cfg, x0, evs + later).sys;
            id in s'.pcs && id in s'.reqs && s'.reqs[id] == Run(cfg, x0, evs).sys.reqs[id] && GaveUp(s'.pcs[id])
  {
    if later == [] {
      assert evs + later == evs;
    } else {
      var front := later[..|later| - 1];
      GaveUpStays(cfg, x0, evs, front, id);
      assert (evs + later)[..|evs + later| - 1] == evs + front;
      WholeReachable(cfg, x0, evs + front);
      RemovedReachable(cfg, x0, evs + front, id);
      EventKeepsRemoved(cfg, Run(cfg, x0, evs + front), later[|later| - 1], id);
      hide *;
    }
  }

  lemma GaveUpIsDefinite(cfg: Config, x: Whole, id: CallId)
    requires Tracks(cfg, x, id) && P.MessageOk(x.kafka, id) && id in x.sys.reqs && id in x.sys.pcs
    requires x.sys.reqs[id].SendOTP? && GaveUp(x.sys.pcs[id])
    ensures id !in x.kafka.log && id !in x.kafka.queue
  {
    hide Accounted;
  }

  /**
   Once the publish-failure path has decided to remove a session, then in that state and every
   later one its event is neither in the log nor still with the client, and once the call has
   answered QueueFailed the session is gone for good, unless its DEL failed.
   */
  lemma RemovedSessionHasNoEvent(cfg: Config, x0: Whole, evs: seq<Event>, later: seq<Event>, id: CallId)
    requires Starting(x0)
    requires var s := Run(cfg, x0, evs).sys; id in s.pcs && id in s.reqs && s.reqs[id].SendOTP? && GaveUp(s.pcs[id])
    ensures var y := Run(cfg, x0, evs + later);
            && id !in y.kafka.log && id !in y.kafka.queue && id in y.sys.pcs && GaveUp(y.sys.pcs[id])
            && (y.sys.pcs[id].Done? && !Run(cfg, x0, evs).sys.reqs[id].faults.remove ==>
                  Session(Run(cfg, x0, evs).sys.reqs[id].sid) !in y.sys.w.store)
  {
    hide WholeInv, Told, P.MessageOk, Run, Starting;
    var y := Run(cfg, x0, evs + later);
    GaveUpStays(cfg, x0, evs, later, id);
    WholeReachable(cfg, x0, evs + later);
    RemovedReachable(cfg, x0, evs + later, id);
    TracksOf(cfg, y, id);
    GaveUpIsDefinite(cfg, y, id);
  }

  /** A signup that was answered with a session id has its event in the log. */
  lemma SentMeansLogged(cfg: Config, x0: Whole, evs: seq<Event>, id: CallId)
    requires Starting(x0)
    requires var s := Run(cfg, x0, evs).sys;
             id in s.pcs && id in s.reqs && s.reqs[id].SendOTP? && s.pcs[id].Done? && s.pcs[id].response.OtpSent?
    ensures id in Run(cfg, x0, evs).kafka.log
  {
    hide WholeInv, Accounted, Consumed, Run, Starting;
    WholeReachable(cfg, x0, evs);
    TracksOf(cfg, Run(cfg, x0, evs), id);
  }

  // ---- a producer with a fatal error ----

  ghost predicate Refusing(x: Whole, id: CallId, e: int) { x.kafka.fatalErr == Some(e) && P.TurnedAway(x.kafka, id, e) }

  lemma EventKeepsRefusing(cfg: Config, x: Whole, e: Event, id: CallId, code: int)
    requires Refusing(x, id, code)
    ensures Refusing(Next(cfg, x, e), id, code)
  {
    if Happens(x, e) && !e.Handler? { P.TurnedAwayKept(x.kafka, AsProducerAction(e), id, code); }
    hide Exec, Enabled, P.Exec, P.TurnedAway;
  }

  lemma {:induction false} RefusingAlways(cfg: Config, x: Whole, evs: seq<Event>, id: CallId, code: int)
    requires Refusing(x, id, code)
    ensures Refusing(Run(cfg, x, evs), id, code)
  {
    hide Next, Refusing;
    if evs != [] {
      RefusingAlways(cfg, x, evs[..|evs| - 1], id, code);
      EventKeepsRefusing(cfg, Run(cfg, x, evs[..|evs| - 1]), evs[|evs| - 1], id, code);
    }
  }

  lemma RefusedIsNotSent(cfg: Config, x: Whole, id: CallId, code: int)
    requires Tracks(cfg, x, id) && P.MessageOk(x.kafka, id) && Refusing(x, id, code)
    ensures id !in x.kafka.log && id !in x.kafka.queue
    ensures id in x.sys.pcs && id in x.sys.reqs && x.sys.reqs[id].SendOTP? && x.sys.pcs[id].Done? ==>
              !x.sys.pcs[id].response.OtpSent? && !x.sys.pcs[id].response.StillProcessing?
  {
    hide Accounted;
  }

  /**
   From the moment the producer has a fatal error: a signup that has not called Publish by then,
   or begins later, never gets its event to the broker, and in whatever interleaving is never
   answered with a session.
   */
  lemma BrokenProducerSendsNothing(cfg: Config, x0: Whole, evs: seq<Event>, later: seq<Event>, id: CallId)
    requires Starting(x0)
    requires var x := Run(cfg, x0, evs); x.kafka.fatalErr.Some? && id !in x.kafka.calls
    ensures var y := Run(cfg, x0, evs + later);
            && id !in y.kafka.log && id !in y.kafka.queue
            && (id in y.sys.pcs && id in y.sys.reqs && y.sys.reqs[id].SendOTP? && y.sys.pcs[id].Done? ==>
                  !y.sys.pcs[id].response.OtpSent? && !y.sys.pcs[id].response.StillProcessing?)
  {
    hide Run, Tracks, P.MessageOk, P.Phases, Starting, Interleaved.Inv, P.TurnedAway;
    var x, y := Run(cfg, x0, evs), Run(cfg, x0, evs + later);
    WholeReachable(cfg, x0, evs + later);
    RunAppend(cfg, x0, evs, later);
    NotCalledIsTurnedAway(x.kafka, id, x.kafka.fatalErr.value);
    RefusingAlways(cfg, x, later, id, x.kafka.fatalErr.value);
    RefusedIsNotSent(cfg, y, id, x.kafka.fatalErr.value);
  }

  lemma NotCalledIsTurnedAway(k: P.State, id: CallId, code: int)
    requires id !in k.calls
    ensures P.TurnedAway(k, id, code)
  {
  }
}
