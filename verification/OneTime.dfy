/**
 A one-time code is used at most once, in every interleaving: once a verification has consumed
 a session, no verification that reads it from then on finds it.
 */
module OneTime {
  import opened Wrappers
  import opened Model
  import opened Keys
  import opened TimedStore
  import opened Service
  import opened Interleaved
  import D = Delivery
  import KafkaProducer

  /** The signup has stored its session. */
  predicate PastSave(pc: Pc) {
    || pc.SendIncr? || pc.SendExpire? || pc.SendPublish? || pc.SendRemove?
    || (pc.Done? && (pc.response.OtpSent? || pc.response.StillProcessing? || pc.response.QueueFailed?))
  }

  predicate Stored(s: Sys, t: CallId, sid: string) {
    t in s.reqs && t in s.pcs && s.reqs[t].SendOTP? && s.reqs[t].sid == sid && PastSave(s.pcs[t])
  }

  ghost predicate WasStored(s: Sys, sid: string) { exists t :: Stored(s, t, sid) }

  /** Sessions in the store, and those that a verification has read, were stored by their signup. */
  ghost predicate SessionsWereStored(s: Sys) {
    && (forall sid | Session(sid) in s.w.store :: WasStored(s, sid))
    && (forall v | v in s.reqs && v in s.pcs && s.reqs[v].VerifyOTP? && (s.pcs[v].VerifyAttempts? || s.pcs[v].VerifyConsume?) ::
          WasStored(s, s.reqs[v].otpSid))
  }

  lemma SaveCommand(cfg: Config, w: World, req: Request, pc: Pc, published: KafkaProducer.Outcome)
    requires req.SendOTP? && SendPc(pc) && Fits(req, pc)
    ensures var r := StepWith(cfg, w, req, pc, published);
            && (PastSave(pc) ==> PastSave(r.1))
            && (pc.SendSave? && !PastSave(r.1) ==> r.0 == w)
  {
    Dispatch(cfg, w, req, pc, published);
    hide StepWith;
  }

  lemma StoredStays(cfg: Config, s: Sys, a: Action, t: CallId, sid: string)
    requires Stored(s, t, sid)
    ensures Stored(Exec(cfg, s, a), t, sid)
  {
    RequestsStay(cfg, s, a, t);
    if a.Advance? && a.id == t && Enabled(s, a) {
      if s.pcs[t].Done? { DoneStays(cfg, s, t, a.published); }
      else { SaveCommand(cfg, s.w, s.reqs[t], s.pcs[t], a.published); }
    }
    hide StepWith, FreshRequest;
  }

  /** A session that a command brings to the store is that of a signup which thereby is past its save. */
  lemma AppearsBySave(cfg: Config, s: Sys, a: Action, sid: string)
    requires Session(sid) in Exec(cfg, s, a).w.store && Session(sid) !in s.w.store
    ensures Stored(Exec(cfg, s, a), a.id, sid)
  {
    hide StepWith, Fits, FreshRequest;
    assert Enabled(s, a) && a.Advance?;
    if s.pcs[a.id].Done? {
      DoneStays(cfg, s, a.id, a.published);
    } else if D.TouchesSession(s.reqs[a.id], s.pcs[a.id], sid) {
      TouchingCommand(cfg, s.w, s.reqs[a.id], s.pcs[a.id], a.published, sid);
    } else {
      D.CommandOnSession(cfg, s.w, s.reqs[a.id], s.pcs[a.id], a.published, sid);
    }
  }

  lemma TouchingCommand(cfg: Config, w: World, req: Request, pc: Pc, published: KafkaProducer.Outcome, sid: string)
    requires Fits(req, pc) && !pc.Done? && D.TouchesSession(req, pc, sid)
    ensures var r := StepWith(cfg, w, req, pc, published);
            && (Session(sid) in r.0.store && Session(sid) !in w.store ==> req.SendOTP? && req.sid == sid && PastSave(r.1))
            && (pc.VerifyConsume? ==> Session(sid) !in r.0.store)
  {
    Dispatch(cfg, w, req, pc, published);
    hide StepWith;
  }

  lemma ReadCommand(cfg: Config, w: World, req: Request, pc: Pc, published: KafkaProducer.Outcome)
    requires Fits(req, pc) && !pc.Done? && req.VerifyOTP?
    ensures var pc' := StepWith(cfg, w, req, pc, published).1;
            && (pc'.VerifyAttempts? ==> Session(req.otpSid) in w.store)
            && (pc'.VerifyConsume? ==> pc.VerifyAttempts?)
            && (pc.VerifySession? && Session(req.otpSid) !in w.store ==> pc' == Done(OtpRejected))
  {
    Dispatch(cfg, w, req, pc, published);
    hide StepWith, hmacFor;
  }

  lemma ActionKeepsStored(cfg: Config, s: Sys, a: Action)
    requires SessionsWereStored(s)
    ensures SessionsWereStored(Exec(cfg, s, a))
  {
    var s' := Exec(cfg, s, a);
    forall sid | WasStored(s, sid) ensures WasStored(s', sid) {
      var t :| Stored(s, t, sid);
      StoredStays(cfg, s, a, t, sid);
    }
    forall sid | Session(sid) in s'.w.store ensures WasStored(s', sid) {
      if Session(sid) !in s.w.store { AppearsBySave(cfg, s, a, sid); }
    }
    forall v | v in s'.reqs && v in s'.pcs && s'.reqs[v].VerifyOTP? && (s'.pcs[v].VerifyAttempts? || s'.pcs[v].VerifyConsume?)
      ensures WasStored(s', s'.reqs[v].otpSid)
    {
      ReadersRead(cfg, s, a, v);
    }
    hide Exec, Stored;
  }

  lemma ReadersRead(cfg: Config, s: Sys, a: Action, v: CallId)
    requires var s' := Exec(cfg, s, a);
             v in s'.reqs && v in s'.pcs && s'.reqs[v].VerifyOTP? && (s'.pcs[v].VerifyAttempts? || s'.pcs[v].VerifyConsume?)
    ensures v in s.reqs && v in s.pcs && s.reqs[v] == Exec(cfg, s, a).reqs[v]
    ensures s.pcs[v].VerifyAttempts? || s.pcs[v].VerifyConsume? || Session(s.reqs[v].otpSid) in s.w.store
  {
    if a.Advance? && a.id == v && Enabled(s, a) && !s.pcs[v].Done? {
      ReadCommand(cfg, s.w, s.reqs[v], s.pcs[v], a.published);
    }
    hide StepWith, FreshRequest, Fits;
  }

  lemma {:induction false} AlwaysStored(cfg: Config, s0: Sys, acts: seq<Action>, i: nat)
    requires Initial(s0) && i <= |acts|
    ensures SessionsWereStored(StateAt(cfg, s0, acts, i)) && SidsDistinct(StateAt(cfg, s0, acts, i))
  {
    hide Exec, SessionsWereStored, SidsDistinct, Initial;
    if i == 0 {
      NothingStored(s0);
    } else {
      AlwaysStored(cfg, s0, acts, i - 1);
      ActionKeepsStored(cfg, StateAt(cfg, s0, acts, i - 1), acts[i - 1]);
      SidsStayDistinct(cfg, StateAt(cfg, s0, acts, i - 1), acts[i - 1]);
    }
  }

  lemma NothingStored(s: Sys)
    requires Initial(s)
    ensures SessionsWereStored(s) && SidsDistinct(s)
  {
  }

  lemma SidsStayDistinct(cfg: Config, s: Sys, a: Action)
    requires SidsDistinct(s)
    ensures SidsDistinct(Exec(cfg, s, a))
  {
    hide StepWith, Fits;
  }

  /** The session is gone and its signup is past storing it. */
  ghost predicate Spent(s: Sys, t: CallId, sid: string) { Stored(s, t, sid) && Session(sid) !in s.w.store }

  lemma TouchingSpent(cfg: Config, s: Sys, a: Action, t: CallId, sid: string)
    requires SidsDistinct(s) && Stored(s, t, sid) && Session(sid) !in s.w.store
    requires Commands(s, a) && D.TouchesSession(s.reqs[a.id], s.pcs[a.id], sid)
    ensures Session(sid) !in Exec(cfg, s, a).w.store
  {
    Dispatch(cfg, s.w, s.reqs[a.id], s.pcs[a.id], a.published);
    hide StepWith;
  }

  lemma NobodySavesAgain(cfg: Config, s: Sys, a: Action, t: CallId, sid: string)
    requires SidsDistinct(s) && Stored(s, t, sid) && Session(sid) !in s.w.store
    ensures Session(sid) !in Exec(cfg, s, a).w.store
  {
    hide StepWith, Fits, FreshRequest;
    if Commands(s, a) {
      if D.TouchesSession(s.reqs[a.id], s.pcs[a.id], sid) { TouchingSpent(cfg, s, a, t, sid); }
      else { D.CommandOnSession(cfg, s.w, s.reqs[a.id], s.pcs[a.id], a.published, sid); }
    } else if a.Advance? && Enabled(s, a) {
      DoneStays(cfg, s, a.id, a.published);
    }
  }

  lemma SpentStays(cfg: Config, s: Sys, a: Action, t: CallId, sid: string)
    requires SidsDistinct(s) && Spent(s, t, sid)
    ensures Spent(Exec(cfg, s, a), t, sid)
  {
    StoredStays(cfg, s, a, t, sid);
    NobodySavesAgain(cfg, s, a, t, sid);
    hide Exec, Stored;
  }

  lemma {:induction false} SpentFrom(cfg: Config, s0: Sys, acts: seq<Action>, n: nat, k: nat, t: CallId, sid: string)
    requires Initial(s0) && n <= k <= |acts| && Spent(StateAt(cfg, s0, acts, n), t, sid)
    ensures Spent(StateAt(cfg, s0, acts, k), t, sid)
  {
    hide Exec, Spent, SidsDistinct, SessionsWereStored, Initial;
    if n < k {
      SpentFrom(cfg, s0, acts, n, k - 1, t, sid);
      AlwaysStored(cfg, s0, acts, k - 1);
      SpentStays(cfg, StateAt(cfg, s0, acts, k - 1), acts[k - 1], t, sid);
    }
  }

  lemma ConsumeSpends(cfg: Config, s: Sys, a: Action) returns (t: CallId)
    requires SessionsWereStored(s) && Commands(s, a) && s.pcs[a.id].VerifyConsume? && s.reqs[a.id].VerifyOTP?
    ensures Spent(Exec(cfg, s, a), t, s.reqs[a.id].otpSid)
  {
    var sid := s.reqs[a.id].otpSid;
    t :| Stored(s, t, sid);
    StoredStays(cfg, s, a, t, sid);
    TouchingCommand(cfg, s.w, s.reqs[a.id], s.pcs[a.id], a.published, sid);
    hide StepWith, Fits, Stored;
  }

  /**
   However the calls interleave: once a verification has consumed a session, every verification
   that reads that session from then on is rejected, whatever code it brings.
   */
  lemma ConsumedCodeIsUsedUp(cfg: Config, s0: Sys, acts: seq<Action>, n: nat, k: nat)
    requires Initial(s0) && n < k < |acts|
    requires var s := StateAt(cfg, s0, acts, n);
             Commands(s, acts[n]) && s.pcs[acts[n].id].VerifyConsume? && s.reqs[acts[n].id].VerifyOTP?
    requires var s, t := StateAt(cfg, s0, acts, n), StateAt(cfg, s0, acts, k);
             && Commands(t, acts[k]) && t.pcs[acts[k].id].VerifySession? && t.reqs[acts[k].id].VerifyOTP?
             && t.reqs[acts[k].id].otpSid == s.reqs[acts[n].id].otpSid
    ensures Exec(cfg, StateAt(cfg, s0, acts, k), acts[k]).pcs[acts[k].id] == Done(OtpRejected)
  {
    hide StateAt, Initial, Fits, SessionsWereStored, SidsDistinct, StepWith;
    var s, t := StateAt(cfg, s0, acts, n), StateAt(cfg, s0, acts, k);
    AlwaysStored(cfg, s0, acts, n);
    StateAtNext(cfg, s0, acts, n);
    var owner := ConsumeSpends(cfg, s, acts[n]);
    SpentFrom(cfg, s0, acts, n + 1, k, owner, s.reqs[acts[n].id].otpSid);
    ReadCommand(cfg, t.w, t.reqs[acts[k].id], t.pcs[acts[k].id], acts[k].published);
  }
}
