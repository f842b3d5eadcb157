/**
 The two granularities agree: a run of atomic calls is one of the interleaved runs, so every
 invariant of the interleaved system holds for atomic calls too.
 */
module Serial {
  import opened Model
  import opened Service
  import opened Interleaved
  import opened AtomicRuns
  import KafkaProducer

  function PublishedBy(req: Request): KafkaProducer.Outcome {
    if req.SendOTP? then req.publish else KafkaProducer.Delivered
  }

  lemma RunCons(cfg: Config, s: Sys, a: Action, acts: seq<Action>)
    ensures Run(cfg, s, [a] + acts) == Run(cfg, Exec(cfg, s, a), acts)
  {
    RunAppend(cfg, s, [a], acts);
    assert [a][..0] == [];
    assert Run(cfg, s, [a]) == Exec(cfg, s, a);
  }

  lemma {:induction false} RunAppend(cfg: Config, s: Sys, xs: seq<Action>, ys: seq<Action>)
    ensures Run(cfg, s, xs + ys) == Run(cfg, Run(cfg, s, xs), ys)
  {
    hide Exec;
    if ys == [] {
      assert xs + ys == xs;
    } else {
      RunAppend(cfg, s, xs, ys[..|ys| - 1]);
      assert (xs + ys)[..|xs + ys| - 1] == xs + ys[..|ys| - 1];
    }
  }

  lemma ThreeSteps(cfg: Config, s: Sys, a: Action, b: Action, c: Action, rest: seq<Action>)
    ensures Run(cfg, s, [a, b, c] + rest) == Run(cfg, Exec(cfg, Exec(cfg, Exec(cfg, s, a), b), c), rest)
  {
    hide Run, Exec;
    assert [a, b, c] + rest == [a] + ([b] + ([c] + rest));
    RunCons(cfg, s, a, [b] + ([c] + rest));
    RunCons(cfg, Exec(cfg, s, a), b, [c] + rest);
    RunCons(cfg, Exec(cfg, Exec(cfg, s, a), b), c, rest);
  }

  lemma SerialStep(cfg: Config, s: Sys, id: CallId)
    requires id in s.reqs && id in s.pcs && Fits(s.reqs[id], s.pcs[id])
    ensures var (w', pc') := Step(cfg, s.w, s.reqs[id], s.pcs[id]);
            Exec(cfg, s, Advance(id, PublishedBy(s.reqs[id]))) == s.(w := w', pcs := s.pcs[id := pc'])
  {
    var req := s.reqs[id];
    assert req.SendOTP? ==> req.(publish := req.publish) == req;
    hide StepSend, StepVerify, StepSignIn, StepRotate, StepCache;
  }

  lemma LastUpdateWins(m: map<CallId, Pc>, id: CallId, a: Pc, b: Pc)
    ensures m[id := a][id := b] == m[id := b]
  {
  }

  lemma FinishUnfolds(cfg: Config, w: World, req: Request, pc: Pc)
    requires Fits(req, pc) && !pc.Done?
    ensures var (w', pc') := Step(cfg, w, req, pc);
            Fits(req, pc') && Rank(pc') < Rank(pc) && Finish(cfg, w, req, pc) == Finish(cfg, w', req, pc')
  {
    StepFits(cfg, w, req, pc);
    hide StepSend, StepVerify, StepSignIn, StepRotate, StepCache;
  }

  /** All actions are of one call, or ticks. */
  predicate OnlyOf(acts: seq<Action>, id: CallId) {
    forall a | a in acts :: a.Tick? || a.id == id
  }

  predicate NoTicks(acts: seq<Action>) {
    forall a | a in acts :: !a.Tick?
  }

  lemma NoTicksSnoc(acts: seq<Action>, a: Action)
    requires !a.Tick?
    ensures NoTicks(acts) ==> NoTicks(acts + [a])
  {
  }

  /** Advancing one call until it is done is Finish. */
  lemma {:induction false} FinishIsARun(cfg: Config, s: Sys, id: CallId) returns (acts: seq<Action>)
    requires id in s.reqs && id in s.pcs && Fits(s.reqs[id], s.pcs[id])
    ensures var (w', r) := Finish(cfg, s.w, s.reqs[id], s.pcs[id]);
            Run(cfg, s, acts) == s.(w := w', pcs := s.pcs[id := Done(r)])
    ensures OnlyOf(acts, id) && NoTicks(acts)
    decreases Rank(s.pcs[id])
  {
    if s.pcs[id].Done? {
      acts := [];
      assert s.pcs[id := s.pcs[id]] == s.pcs;
    } else {
      var a := Advance(id, PublishedBy(s.reqs[id]));
      SerialStep(cfg, s, id);
      FinishUnfolds(cfg, s.w, s.reqs[id], s.pcs[id]);
      hide Exec, Step;
      var t := Exec(cfg, s, a);
      var rest := FinishIsARun(cfg, t, id);
      RunCons(cfg, s, a, rest);
      acts := [a] + rest;
      LastUpdateWins(s.pcs, id, t.pcs[id], Done(Finish(cfg, t.w, s.reqs[id], t.pcs[id]).1));
    }
  }

  /** A whole atomic call is a begin and its own commands with nothing in between. */
  lemma AtomicCallIsARun(cfg: Config, s: Sys, id: CallId, req: Request) returns (acts: seq<Action>)
    requires Enabled(s, Begin(id, req))
    ensures var (w', r) := Apply(cfg, s.w, req);
            Run(cfg, s, acts) == s.(w := w', reqs := s.reqs[id := req], pcs := s.pcs[id := Done(r)])
    ensures OnlyOf(acts, id) && NoTicks(acts)
  {
    StartFits(req);
    var t := Exec(cfg, s, Begin(id, req));
    var rest := FinishIsARun(cfg, t, id);
    RunCons(cfg, s, Begin(id, req), rest);
    acts := [Begin(id, req)] + rest;
    LastUpdateWins(s.pcs, id, Start(req), Done(Finish(cfg, s.w, req, Start(req)).1));
    hide Finish, Fits;
  }

  /** UUIDs of OTP sessions do not repeat. */
  predicate SidsFresh(evs: seq<Event>) {
    forall i, j | 0 <= i < j < |evs| && evs[i].Call? && evs[j].Call? && evs[i].req.SendOTP? && evs[j].req.SendOTP? ::
      evs[i].req.sid != evs[j].req.sid
  }

  // ---- at most one call is open ----

  predicate Open(s: Sys, t: CallId) { t in s.pcs && !s.pcs[t].Done? }

  ghost predicate NoneOpen(s: Sys) { forall t :: !Open(s, t) }

  /** At every point of the run at most one call has begun and not ended, and time passes only when none has. */
  ghost predicate OneAtATime(cfg: Config, s0: Sys, acts: seq<Action>) {
    && (forall t, u | Open(Run(cfg, s0, acts), t) && Open(Run(cfg, s0, acts), u) :: t == u)
    && (acts != [] ==>
          && OneAtATime(cfg, s0, acts[..|acts| - 1])
          && (acts[|acts| - 1].Tick? ==> NoneOpen(Run(cfg, s0, acts[..|acts| - 1]))))
  }

  lemma ActionOpensOwn(cfg: Config, s: Sys, a: Action, t: CallId)
    requires Open(Exec(cfg, s, a), t) && !Open(s, t)
    ensures a.Begin? && a.id == t
  {
    if a.Advance? && Enabled(s, a) && s.pcs[a.id].Done? { DoneStays(cfg, s, a.id, a.published); }
    hide StepWith;
  }

  lemma {:induction false} OnlyOwnOpen(cfg: Config, s: Sys, acts: seq<Action>, id: CallId, t: CallId)
    requires NoneOpen(s) && OnlyOf(acts, id) && Open(Run(cfg, s, acts), t)
    ensures t == id
  {
    hide Exec, Open;
    if acts != [] {
      var front := acts[..|acts| - 1];
      if Open(Run(cfg, s, front), t) { OnlyOwnOpen(cfg, s, front, id, t); }
      else { ActionOpensOwn(cfg, Run(cfg, s, front), acts[|acts| - 1], t); }
    }
  }

  lemma {:induction false} OneMoreCall(cfg: Config, s0: Sys, front: seq<Action>, more: seq<Action>, id: CallId)
    requires OneAtATime(cfg, s0, front) && NoneOpen(Run(cfg, s0, front))
    requires OnlyOf(more, id) && (NoTicks(more) || |more| <= 1)
    ensures OneAtATime(cfg, s0, front + more)
  {
    RunAppend(cfg, s0, front, more);
    forall t | Open(Run(cfg, s0, front + more), t) ensures t == id {
      OnlyOwnOpen(cfg, Run(cfg, s0, front), more, id, t);
    }
    hide Run, Open;
    if more == [] {
      assert front + more == front;
    } else {
      OneMoreCall(cfg, s0, front, more[..|more| - 1], id);
      assert front + [] == front && more[|more| - 1] in more;
      assert (front + more)[..|front + more| - 1] == front + more[..|more| - 1];
    }
  }

  // ---- whole runs ----

  /** The interleaved system after the first n events: their calls have ended with their answers, nothing else has begun. */
  ghost predicate Matches(cfg: Config, w0: World, evs: seq<Event>, n: nat, s: Sys)
    requires n <= |evs|
  {
    && s.w == At(cfg, w0, evs, n) && s.pcs.Keys == s.reqs.Keys
    && (forall t | t in s.reqs :: t < n && evs[t].Call? && s.reqs[t] == evs[t].req)
    && (forall t: nat | t < n && evs[t].Call? :: AnsweredAs(cfg, w0, evs, t, s))
  }

  /** Call t has the answer that event t has in the atomic run. */
  ghost predicate AnsweredAs(cfg: Config, w0: World, evs: seq<Event>, t: nat, s: Sys)
    requires t < |evs| && evs[t].Call?
  {
    t in s.pcs && s.pcs[t] == Done(Apply(cfg, At(cfg, w0, evs, t), evs[t].req).1)
  }

  lemma MatchesNoneOpen(cfg: Config, w0: World, evs: seq<Event>, n: nat, s: Sys)
    requires n <= |evs| && Matches(cfg, w0, evs, n, s)
    ensures NoneOpen(s)
  {
    hide Apply, At;
  }

  /** One more event is one more block of actions. */
  lemma OneBlock(cfg: Config, s0: Sys, evs: seq<Event>, n: nat, front: seq<Action>) returns (more: seq<Action>)
    requires n < |evs| && SidsFresh(evs) && Matches(cfg, s0.w, evs, n, Run(cfg, s0, front))
    ensures Matches(cfg, s0.w, evs, n + 1, Run(cfg, s0, front + more))
    ensures OnlyOf(more, n) && (NoTicks(more) || |more| <= 1)
  {
    var s := Run(cfg, s0, front);
    if evs[n].Tick? {
      more := [Interleaved.Tick(evs[n].d)];
      TickBlock(cfg, s0.w, evs, n, s);
    } else {
      CanBegin(cfg, s0.w, evs, n, s);
      more := AtomicCallIsARun(cfg, s, n, evs[n].req);
      CallBlock(cfg, s0.w, evs, n, s, Run(cfg, s, more));
    }
    hide Run, Matches, Apply, Exec, Enabled;
    RunAppend(cfg, s0, front, more);
  }

  lemma TickBlock(cfg: Config, w0: World, evs: seq<Event>, n: nat, s: Sys)
    requires n < |evs| && evs[n].Tick? && Matches(cfg, w0, evs, n, s)
    ensures Matches(cfg, w0, evs, n + 1, Run(cfg, s, [Interleaved.Tick(evs[n].d)]))
  {
    hide Apply;
    RunCons(cfg, s, Interleaved.Tick(evs[n].d), []);
  }

  lemma CanBegin(cfg: Config, w0: World, evs: seq<Event>, n: nat, s: Sys)
    requires n < |evs| && evs[n].Call? && SidsFresh(evs) && Matches(cfg, w0, evs, n, s)
    ensures Enabled(s, Begin(n, evs[n].req))
  {
    hide Apply, At;
  }

  lemma CallBlock(cfg: Config, w0: World, evs: seq<Event>, n: nat, s: Sys, t: Sys)
    requires n < |evs| && evs[n].Call? && Matches(cfg, w0, evs, n, s)
    requires var (w', r) := Apply(cfg, s.w, evs[n].req);
             t == s.(w := w', reqs := s.reqs[n := evs[n].req], pcs := s.pcs[n := Done(r)])
    ensures Matches(cfg, w0, evs, n + 1, t)
  {
    hide Apply, At, AnsweredAs;
    AtAfterCall(cfg, w0, evs, n);
    forall u: nat | u < n + 1 && evs[u].Call? ensures AnsweredAs(cfg, w0, evs, u, t) {
      if u < n { AnswerStays(cfg, w0, evs, u, s, t, n); } else { NewAnswer(cfg, w0, evs, n, s, t); }
    }
  }

  lemma AnswerStays(cfg: Config, w0: World, evs: seq<Event>, u: nat, s: Sys, t: Sys, n: CallId)
    requires u < |evs| && evs[u].Call? && AnsweredAs(cfg, w0, evs, u, s)
    requires u != n && n in t.pcs && t.pcs == s.pcs[n := t.pcs[n]]
    ensures AnsweredAs(cfg, w0, evs, u, t)
  {
    hide Apply, At;
  }

  lemma NewAnswer(cfg: Config, w0: World, evs: seq<Event>, n: nat, s: Sys, t: Sys)
    requires n < |evs| && evs[n].Call? && s.w == At(cfg, w0, evs, n)
    requires n in t.pcs && t.pcs[n] == Done(Apply(cfg, s.w, evs[n].req).1)
    ensures AnsweredAs(cfg, w0, evs, n, t)
  {
    hide Apply, At;
  }

  lemma AtAfterCall(cfg: Config, w0: World, evs: seq<Event>, n: nat)
    requires n < |evs| && evs[n].Call?
    ensures At(cfg, w0, evs, n + 1) == Apply(cfg, At(cfg, w0, evs, n), evs[n].req).0
  {
    hide Apply;
  }

  /** Every run of atomic calls goes on as an interleaved run in which calls are one at a time. */
  lemma {:induction false} Blocks(cfg: Config, s0: Sys, evs: seq<Event>, i: nat, n: nat, front: seq<Action>)
    returns (more: seq<Action>)
    requires i <= n <= |evs| && SidsFresh(evs) && Matches(cfg, s0.w, evs, i, Run(cfg, s0, front))
    requires OneAtATime(cfg, s0, front)
    ensures Matches(cfg, s0.w, evs, n, Run(cfg, s0, front + more)) && OneAtATime(cfg, s0, front + more)
    decreases n - i
  {
    hide Matches, OneAtATime, Run;
    if i == n {
      more := [];
      assert front + more == front;
    } else {
      var block := OneBlock(cfg, s0, evs, i, front);
      MatchesNoneOpen(cfg, s0.w, evs, i, Run(cfg, s0, front));
      OneMoreCall(cfg, s0, front, block, i);
      var rest := Blocks(cfg, s0, evs, i + 1, n, front + block);
      more := block + rest;
      assert front + more == front + block + rest;
    }
  }

  lemma StartMatches(cfg: Config, s0: Sys, evs: seq<Event>)
    requires Initial(s0)
    ensures Matches(cfg, s0.w, evs, 0, Run(cfg, s0, [])) && OneAtATime(cfg, s0, [])
  {
  }

  /**
   Every run of atomic calls is an interleaved run with the same world, in which event t is
   call t, each call has the answer it has in the atomic run, and calls are one at a time.
   */
  lemma AtomicRunIsInterleaved(cfg: Config, s0: Sys, evs: seq<Event>, n: nat) returns (acts: seq<Action>)
    requires Initial(s0) && SidsFresh(evs) && n <= |evs|
    ensures Matches(cfg, s0.w, evs, n, Run(cfg, s0, acts)) && OneAtATime(cfg, s0, acts)
  {
    hide Run, Matches, OneAtATime;
    StartMatches(cfg, s0, evs);
    acts := Blocks(cfg, s0, evs, 0, n, []);
    assert [] + acts == acts;
  }
}
