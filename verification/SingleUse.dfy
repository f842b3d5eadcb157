/**
 When a refresh token is single-use. Calls may overlap freely; two rotations that bring the
 same JTI both succeed exactly when at some moment both have read their slot and neither has
 written it. In particular no JTI rotates twice where rotations read their slot one after the other.
 */
module SingleUse {
  import opened Model
  import opened TimedStore
  import opened Service
  import opened Interleaved
  import opened Sessions
  import KafkaProducer

  /** UUIDs are never repeated. */
  predicate JtisDistinct(reqs: map<CallId, Request>) {
    forall t, u | t in reqs && u in reqs && t != u && NamesJti(reqs[t]) && NamesJti(reqs[u]) ::
      reqs[t].jti != reqs[u].jti
  }

  /** The call has written its JTI to the slot. */
  predicate HasIssued(req: Request, pc: Pc, sl: Slot) {
    || (pc.SignInCache? && (req.Login? || req.Google?) && sl == Slot(req.device, pc.user.id))
    || (pc.Done? && pc.response.SignedIn? && (req.Login? || req.Google?) && sl == Slot(req.device, pc.response.profile.id))
    || (pc.Done? && pc.response.Rotated? && req.Rotate? && pc.response.refresh.Signed? &&
        sl == Slot(req.device, pc.response.refresh.claims.userId))
  }

  /** Some call has written this JTI to this slot. */
  ghost predicate FromCall(s: Sys, sl: Slot, jti: string) {
    exists t | t in s.reqs && t in s.pcs :: HasIssued(s.reqs[t], s.pcs[t], sl) && s.reqs[t].jti == jti
  }

  ghost predicate EntriesFromCalls(s: Sys) {
    forall sl: Slot | KeyOf(sl) in s.w.store && s.w.store[KeyOf(sl)].value.Jti? ::
      FromCall(s, sl, s.w.store[KeyOf(sl)].value.jti)
  }

  predicate Presents(s: Sys, t: CallId, jti: string) {
    t in s.reqs && s.reqs[t].Rotate? && s.reqs[t].token.Signed? && s.reqs[t].token.claims.jti == jti
  }

  predicate HasRotated(s: Sys, t: CallId) {
    t in s.pcs && t in s.reqs && s.reqs[t].Rotate? && s.pcs[t].Done? && s.pcs[t].response.Rotated?
  }

  /** No slot holds the JTI, and some call wrote it once, so nobody will write it again. */
  ghost predicate Spent(s: Sys, jti: string) {
    && (exists sl: Slot :: FromCall(s, sl, jti))
    && forall sl: Slot :: !HasJti(s.w.store, sl, jti)
  }

  predicate HasJti(store: Store, sl: Slot, jti: string) {
    KeyOf(sl) in store && store[KeyOf(sl)].value == Jti(jti)
  }

  /** A call about to store presented a JTI that was written to its slot. */
  ghost predicate StoresFromCalls(s: Sys) {
    forall t, sl | StandsAtStore(s, t, sl) ::
      s.reqs[t].token.Signed? && FromCall(s, sl, s.reqs[t].token.claims.jti)
  }

  ghost predicate RotatedAreSpent(s: Sys) {
    forall t | HasRotated(s, t) :: s.reqs[t].token.Signed? && Spent(s, s.reqs[t].token.claims.jti)
  }

  ghost predicate UseInv(s: Sys) {
    s.pcs.Keys == s.reqs.Keys && EntriesFromCalls(s) && StoresFromCalls(s) && RotatedAreSpent(s)
  }

  // ---- one action ----

  lemma IssuedStaysAtCommand(cfg: Config, w: World, req: Request, pc: Pc, published: KafkaProducer.Outcome, sl: Slot)
    requires Fits(req, pc) && HasIssued(req, pc, sl)
    ensures HasIssued(req, StepWith(cfg, w, req, pc, published).1, sl)
  {
  }

  lemma IssuedStays(cfg: Config, s: Sys, a: Action, sl: Slot, jti: string)
    requires FromCall(s, sl, jti)
    ensures FromCall(Exec(cfg, s, a), sl, jti)
  {
    var t :| t in s.reqs && t in s.pcs && HasIssued(s.reqs[t], s.pcs[t], sl) && s.reqs[t].jti == jti;
    if a.Advance? && a.id == t && Enabled(s, a) {
      IssuedStaysAtCommand(cfg, s.w, s.reqs[t], s.pcs[t], a.published, sl);
    }
    hide StepWith, HasIssued, Fits;
    var s' := Exec(cfg, s, a);
    assert t in s'.reqs && t in s'.pcs && HasIssued(s'.reqs[t], s'.pcs[t], sl);
  }

  /** A command that writes its JTI to a slot has written it afterwards, and had not before. */
  lemma IssueIsFromCall(cfg: Config, s: Sys, a: Action, sl: Slot)
    requires OpOn(s, a, sl).Issue?
    ensures Commands(s, a) && NamesJti(s.reqs[a.id]) && OpOn(s, a, sl) == Issue(s.reqs[a.id].jti)
    ensures forall other: Slot :: !HasIssued(s.reqs[a.id], s.pcs[a.id], other)
    ensures var t := Exec(cfg, s, a);
            t.reqs == s.reqs && a.id in t.pcs && HasIssued(t.reqs[a.id], t.pcs[a.id], sl)
  {
    Dispatch(cfg, s.w, s.reqs[a.id], s.pcs[a.id], a.published);
    hide StepWith;
  }

  lemma EntryKept(cfg: Config, s: Sys, a: Action, sl: Slot)
    requires EntriesFromCalls(s)
    requires var store := Exec(cfg, s, a).w.store; KeyOf(sl) in store && store[KeyOf(sl)].value.Jti?
    ensures FromCall(Exec(cfg, s, a), sl, Exec(cfg, s, a).w.store[KeyOf(sl)].value.jti)
  {
    ActionOnSlot(cfg, s, a, sl);
    hide Exec, HasIssued;
    if OpOn(s, a, sl).Issue? { IssueIsFromCall(cfg, s, a, sl); }
    else if OpOn(s, a, sl).Nothing? { IssuedStays(cfg, s, a, sl, s.w.store[KeyOf(sl)].value.jti); }
    hide OpOn;
  }

  /** The calls that have written one JTI are one call, which wrote it to one slot. */
  lemma OneIssuer(s: Sys, sl: Slot, other: Slot, jti: string)
    requires JtisDistinct(s.reqs) && FromCall(s, sl, jti) && FromCall(s, other, jti)
    ensures sl == other
  {
  }

  /** A call that is about to write its JTI is not one that has written a JTI already. */
  lemma NewJtiIsNew(cfg: Config, s: Sys, a: Action, sl: Slot, other: Slot, jti: string)
    requires JtisDistinct(s.reqs) && FromCall(s, other, jti) && OpOn(s, a, sl).Issue?
    ensures OpOn(s, a, sl) != Issue(jti)
  {
    IssueIsFromCall(cfg, s, a, sl);
    hide Exec, OpOn, Commands;
  }

  /** A JTI that no slot holds does not come back. */
  lemma AbsentStays(cfg: Config, s: Sys, a: Action, sl: Slot, other: Slot, jti: string)
    requires JtisDistinct(s.reqs) && FromCall(s, other, jti) && !HasJti(s.w.store, sl, jti)
    ensures !HasJti(Exec(cfg, s, a).w.store, sl, jti)
  {
    ActionOnSlot(cfg, s, a, sl);
    if OpOn(s, a, sl).Issue? { NewJtiIsNew(cfg, s, a, sl, other, jti); }
    hide Exec, OpOn;
  }

  lemma SpentStays(cfg: Config, s: Sys, a: Action, jti: string)
    requires JtisDistinct(s.reqs) && Spent(s, jti)
    ensures Spent(Exec(cfg, s, a), jti)
  {
    hide Exec, FromCall, HasJti;
    var other: Slot :| FromCall(s, other, jti);
    IssuedStays(cfg, s, a, other, jti);
    forall sl: Slot ensures !HasJti(Exec(cfg, s, a).w.store, sl, jti) {
      AbsentStays(cfg, s, a, sl, other, jti);
    }
  }

  lemma StoreAction(cfg: Config, s: Sys, a: Action, sl: Slot)
    requires Commands(s, a) && StandsAtStore(s, a.id, sl)
    ensures HasRotated(Exec(cfg, s, a), a.id) && OpOn(s, a, sl) == Issue(s.reqs[a.id].jti) && Exec(cfg, s, a).reqs == s.reqs
    ensures forall other: Slot | other != sl :: OpOn(s, a, other) == Nothing
  {
    Dispatch(cfg, s.w, s.reqs[a.id], s.pcs[a.id], a.published);
    hide StepWith;
  }

  /** The store replaces the only entry that held the presented JTI. */
  lemma StoreSpends(cfg: Config, s: Sys, a: Action, sl: Slot)
    requires UseInv(s) && JtisDistinct(s.reqs) && Commands(s, a) && StandsAtStore(s, a.id, sl)
    ensures s.reqs[a.id].token.Signed? && Spent(Exec(cfg, s, a), s.reqs[a.id].token.claims.jti)
  {
    hide Exec, RotatedAreSpent, FromCall, OpOn, Fits;
    var jti := s.reqs[a.id].token.claims.jti;
    assert FromCall(s, sl, jti);
    StoreAction(cfg, s, a, sl);
    IssuedStays(cfg, s, a, sl, jti);
    forall other: Slot ensures !HasJti(Exec(cfg, s, a).w.store, other, jti) {
      if other == sl {
        NewJtiIsNew(cfg, s, a, sl, sl, jti);
        ActionOnSlot(cfg, s, a, sl);
      } else {
        if HasJti(s.w.store, other, jti) { OneIssuer(s, sl, other, jti); }
        ActionOnSlot(cfg, s, a, other);
      }
    }
  }

  lemma RotatedComesFromStore(cfg: Config, s: Sys, a: Action, t: CallId) returns (sl: Slot)
    requires HasRotated(Exec(cfg, s, a), t) && !HasRotated(s, t)
    ensures Commands(s, a) && a.id == t && StandsAtStore(s, t, sl)
  {
    if a.Advance? && a.id == t && Enabled(s, a) {
      if s.pcs[t].Done? { DoneStays(cfg, s, t, a.published); }
      else { Dispatch(cfg, s.w, s.reqs[t], s.pcs[t], a.published); }
      sl := Slot(if s.reqs[t].Rotate? then s.reqs[t].device else "", if s.pcs[t].RotateStore? then s.pcs[t].owner else "");
    }
    hide StepWith;
  }

  lemma SpentKept(cfg: Config, s: Sys, a: Action)
    requires UseInv(s) && JtisDistinct(s.reqs)
    ensures RotatedAreSpent(Exec(cfg, s, a))
  {
    hide Exec, Spent, EntriesFromCalls, StoresFromCalls, JtisDistinct, Commands;
    forall t | HasRotated(Exec(cfg, s, a), t)
      ensures Exec(cfg, s, a).reqs[t].token.Signed? && Spent(Exec(cfg, s, a), Exec(cfg, s, a).reqs[t].token.claims.jti)
    {
      RequestsStay(cfg, s, a, t);
      if HasRotated(s, t) {
        SpentStays(cfg, s, a, s.reqs[t].token.claims.jti);
      } else {
        var sl := RotatedComesFromStore(cfg, s, a, t);
        StoreSpends(cfg, s, a, sl);
      }
    }
  }

  lemma StoresKept(cfg: Config, s: Sys, a: Action)
    requires EntriesFromCalls(s) && StoresFromCalls(s)
    ensures StoresFromCalls(Exec(cfg, s, a))
  {
    hide Exec, FromCall;
    forall t, sl | StandsAtStore(Exec(cfg, s, a), t, sl)
      ensures Exec(cfg, s, a).reqs[t].token.Signed? && FromCall(Exec(cfg, s, a), sl, Exec(cfg, s, a).reqs[t].token.claims.jti)
    {
      StandingIsFromCall(cfg, s, a, t, sl);
    }
  }

  lemma StandingIsFromCall(cfg: Config, s: Sys, a: Action, t: CallId, sl: Slot)
    requires EntriesFromCalls(s) && StoresFromCalls(s) && StandsAtStore(Exec(cfg, s, a), t, sl)
    ensures Exec(cfg, s, a).reqs[t].token.Signed? && FromCall(Exec(cfg, s, a), sl, Exec(cfg, s, a).reqs[t].token.claims.jti)
  {
    RequestsStay(cfg, s, a, t);
    hide Exec, FromCall;
    if !StandsAtStore(s, t, sl) {
      ComesToStore(cfg, s, a, t, sl);
      assert KeyOf(sl) in s.w.store && s.w.store[KeyOf(sl)].value == Jti(s.reqs[t].token.claims.jti);
    }
    IssuedStays(cfg, s, a, sl, s.reqs[t].token.claims.jti);
  }

  lemma UseInvKept(cfg: Config, s: Sys, a: Action)
    requires UseInv(s) && JtisDistinct(s.reqs)
    ensures UseInv(Exec(cfg, s, a))
  {
    hide Exec, FromCall, StoresFromCalls, RotatedAreSpent, JtisDistinct;
    RequestsStay(cfg, s, a, 0);
    forall sl: Slot | KeyOf(sl) in Exec(cfg, s, a).w.store && Exec(cfg, s, a).w.store[KeyOf(sl)].value.Jti?
      ensures FromCall(Exec(cfg, s, a), sl, Exec(cfg, s, a).w.store[KeyOf(sl)].value.jti)
    {
      EntryKept(cfg, s, a, sl);
    }
    StoresKept(cfg, s, a);
    SpentKept(cfg, s, a);
  }

  // ---- whole runs ----

  lemma {:induction false} RequestsGrow(cfg: Config, s0: Sys, acts: seq<Action>, i: nat, k: nat, t: CallId)
    requires i <= k <= |acts|
    ensures t in StateAt(cfg, s0, acts, i).reqs ==>
              t in StateAt(cfg, s0, acts, k).reqs && StateAt(cfg, s0, acts, k).reqs[t] == StateAt(cfg, s0, acts, i).reqs[t]
  {
    hide Exec;
    if i < k {
      RequestsGrow(cfg, s0, acts, i, k - 1, t);
      RequestsStay(cfg, StateAt(cfg, s0, acts, k - 1), acts[k - 1], t);
    }
  }

  lemma DistinctBefore(cfg: Config, s0: Sys, acts: seq<Action>, i: nat, k: nat)
    requires i <= k <= |acts| && JtisDistinct(StateAt(cfg, s0, acts, k).reqs)
    ensures JtisDistinct(StateAt(cfg, s0, acts, i).reqs)
  {
    hide StateAt;
    forall t ensures t in StateAt(cfg, s0, acts, i).reqs ==>
        t in StateAt(cfg, s0, acts, k).reqs && StateAt(cfg, s0, acts, k).reqs[t] == StateAt(cfg, s0, acts, i).reqs[t] {
      RequestsGrow(cfg, s0, acts, i, k, t);
    }
  }

  lemma {:induction false} UseInvAlways(cfg: Config, s0: Sys, acts: seq<Action>, i: nat)
    requires Initial(s0) && i <= |acts| && JtisDistinct(StateAt(cfg, s0, acts, |acts|).reqs)
    ensures UseInv(StateAt(cfg, s0, acts, i)) && JtisDistinct(StateAt(cfg, s0, acts, i).reqs)
  {
    hide Exec, JtisDistinct;
    DistinctBefore(cfg, s0, acts, i, |acts|);
    if i > 0 {
      UseInvAlways(cfg, s0, acts, i - 1);
      UseInvKept(cfg, StateAt(cfg, s0, acts, i - 1), acts[i - 1]);
    }
  }

  predicate AtStore(s: Sys, t: CallId) { HasRead(s, t) && s.pcs[t].RotateStore? }

  /** Both calls have read their slot successfully and neither has written it. */
  predicate BothAtStore(s: Sys, x: CallId, y: CallId) { AtStore(s, x) && AtStore(s, y) }

  /** The call is past a successful read; it is about to store or has stored. */
  predicate Succeeds(s: Sys, t: CallId, jti: string) { HasRead(s, t) && WillRotate(s.pcs[t]) && Presents(s, t, jti) }

  lemma SlotOfStore(s: Sys, t: CallId) returns (sl: Slot)
    requires AtStore(s, t)
    ensures StandsAtStore(s, t, sl)
  {
    sl := Slot(s.reqs[t].device, s.pcs[t].owner);
  }

  /** Nobody reads a JTI successfully once a rotation with it has stored. */
  lemma SecondReadIsBeforeFirstStore(cfg: Config, s: Sys, a: Action, x: CallId, y: CallId, jti: string)
    requires UseInv(s) && x != y && Succeeds(Exec(cfg, s, a), x, jti) && !Succeeds(s, x, jti)
    requires Succeeds(s, y, jti)
    ensures BothAtStore(Exec(cfg, s, a), x, y)
  {
    RequestsStay(cfg, s, a, x);
    FateKept(cfg, s, a, y);
    ReaderIsNew(cfg, s, a, x, jti);
    hide Exec, EntriesFromCalls, StoresFromCalls, FromCall;
    var sl := SlotOfStore(Exec(cfg, s, a), x);
    ComesToStore(cfg, s, a, x, sl);
    assert HasJti(s.w.store, sl, jti);
    assert !HasRotated(s, y);
    OthersKeepPc(cfg, s, a, y);
  }

  lemma OthersKeepPc(cfg: Config, s: Sys, a: Action, y: CallId)
    requires y in s.pcs && !(a.Advance? && a.id == y)
    ensures y in Exec(cfg, s, a).pcs && Exec(cfg, s, a).pcs[y] == s.pcs[y]
  {
    hide StepWith;
  }

  lemma ReaderIsNew(cfg: Config, s: Sys, a: Action, x: CallId, jti: string)
    requires Succeeds(Exec(cfg, s, a), x, jti) && !Succeeds(s, x, jti)
    ensures AtStore(Exec(cfg, s, a), x) && !AtStore(s, x) && a.Advance? && a.id == x
  {
    if HasRead(s, x) { FateKept(cfg, s, a, x); }
    if HasRotated(Exec(cfg, s, a), x) && !HasRotated(s, x) { var sl := RotatedComesFromStore(cfg, s, a, x); }
    hide StepWith;
  }

  lemma {:induction false} BothReadFirst(cfg: Config, s0: Sys, acts: seq<Action>, i: nat, x: CallId, y: CallId, jti: string)
    returns (n: nat)
    requires Initial(s0) && i <= |acts| && JtisDistinct(StateAt(cfg, s0, acts, |acts|).reqs) && x != y
    requires Succeeds(StateAt(cfg, s0, acts, i), x, jti) && Succeeds(StateAt(cfg, s0, acts, i), y, jti)
    ensures n <= i && BothAtStore(StateAt(cfg, s0, acts, n), x, y)
  {
    hide Exec, Succeeds, BothAtStore, UseInv, JtisDistinct;
    n := i;
    if i == 0 {
      NobodyYet(s0, x, jti);
    } else {
      var s := StateAt(cfg, s0, acts, i - 1);
      UseInvAlways(cfg, s0, acts, i - 1);
      if Succeeds(s, x, jti) && Succeeds(s, y, jti) {
        n := BothReadFirst(cfg, s0, acts, i - 1, x, y, jti);
      } else if Succeeds(s, x, jti) {
        SecondReadIsBeforeFirstStore(cfg, s, acts[i - 1], y, x, jti);
        BothEitherWay(StateAt(cfg, s0, acts, i), x, y);
      } else if Succeeds(s, y, jti) {
        SecondReadIsBeforeFirstStore(cfg, s, acts[i - 1], x, y, jti);
      } else {
        ReaderIsNew(cfg, s, acts[i - 1], x, jti);
        ReaderIsNew(cfg, s, acts[i - 1], y, jti);
      }
    }
  }

  lemma NobodyYet(s0: Sys, x: CallId, jti: string)
    requires Initial(s0)
    ensures !Succeeds(s0, x, jti)
  {
  }

  lemma BothEitherWay(s: Sys, x: CallId, y: CallId)
    ensures BothAtStore(s, x, y) == BothAtStore(s, y, x)
  {
  }

  lemma RotatedIsSuccess(s: Sys, t: CallId, jti: string)
    requires Presents(s, t, jti) && t in s.pcs && s.pcs[t].Done?
    ensures HasRotated(s, t) <==> Succeeds(s, t, jti)
  {
  }

  lemma AtStoreSucceeds(cfg: Config, s0: Sys, acts: seq<Action>, n: nat, t: CallId, jti: string)
    requires n <= |acts| && AtStore(StateAt(cfg, s0, acts, n), t) && Presents(StateAt(cfg, s0, acts, |acts|), t, jti)
    ensures Succeeds(StateAt(cfg, s0, acts, |acts|), t, jti)
  {
    hide StateAt;
    FateFixed(cfg, s0, acts, t, n, |acts|);
  }

  /**
   Single use, in every interleaving. Of two finished rotations that bring the same JTI both
   succeeded exactly when at some moment both had read their slot successfully and neither
   had written it.
   */
  lemma SingleUseExactly(cfg: Config, s0: Sys, acts: seq<Action>, x: CallId, y: CallId, jti: string)
    requires Initial(s0) && x != y && JtisDistinct(Run(cfg, s0, acts).reqs)
    requires var s := Run(cfg, s0, acts);
             && Presents(s, x, jti) && Presents(s, y, jti)
             && x in s.pcs && s.pcs[x].Done? && y in s.pcs && s.pcs[y].Done?
    ensures (HasRotated(Run(cfg, s0, acts), x) && HasRotated(Run(cfg, s0, acts), y)) <==>
            exists n | 0 <= n <= |acts| :: BothAtStore(Run(cfg, s0, acts[..n]), x, y)
  {
    hide Run, StateAt, Initial, JtisDistinct, Presents, Succeeds, HasRotated;
    StateAtIsRun(cfg, s0, acts, |acts|);
    assert acts[..|acts|] == acts;
    RotatedIsSuccess(Run(cfg, s0, acts), x, jti);
    RotatedIsSuccess(Run(cfg, s0, acts), y, jti);
    if HasRotated(Run(cfg, s0, acts), x) && HasRotated(Run(cfg, s0, acts), y) {
      var n := BothReadFirst(cfg, s0, acts, |acts|, x, y, jti);
      StateAtIsRun(cfg, s0, acts, n);
    }
    forall n | 0 <= n <= |acts| && BothAtStore(Run(cfg, s0, acts[..n]), x, y)
      ensures HasRotated(Run(cfg, s0, acts), x) && HasRotated(Run(cfg, s0, acts), y)
    {
      StateAtIsRun(cfg, s0, acts, n);
      AtStoreSucceeds(cfg, s0, acts, n, x, jti);
      AtStoreSucceeds(cfg, s0, acts, n, y, jti);
    }
  }

  // ---- rotations that do not read while another is about to write ----

  /** The action reads the slot only while no other call stands between its read and its write of it. */
  ghost predicate ReadWaits(cfg: Config, s: Sys, a: Action, sl: Slot) {
    Commands(s, a) && ReadsOn(cfg, s.w.now, s.reqs[a.id], s.pcs[a.id], sl) ==>
      forall t | StandsAtStore(s, t, sl) :: t == a.id
  }

  /** Rotations read this slot one after the other. Sign-ins and revocations may fall anywhere in between. */
  ghost predicate ReadsApart(cfg: Config, s0: Sys, acts: seq<Action>, sl: Slot) {
    forall n | 0 <= n < |acts| :: ReadWaits(cfg, StateAt(cfg, s0, acts, n), acts[n], sl)
  }

  lemma PerSlotReadsApart(cfg: Config, s0: Sys, acts: seq<Action>, sl: Slot)
    requires PerSlot(cfg, s0, acts, sl)
    ensures ReadsApart(cfg, s0, acts, sl)
  {
    hide StateAt, ReadsOn, StandsAtStore, Enabled;
    forall n | 0 <= n < |acts| ensures ReadWaits(cfg, StateAt(cfg, s0, acts, n), acts[n], sl) {
      assert WaitsFor(cfg, StateAt(cfg, s0, acts, n), acts[n], sl);
    }
  }

  lemma {:induction false} OneAtStore(cfg: Config, s0: Sys, acts: seq<Action>, sl: Slot, i: nat, x: CallId, y: CallId)
    requires Initial(s0) && i <= |acts| && ReadsApart(cfg, s0, acts, sl)
    requires StandsAtStore(StateAt(cfg, s0, acts, i), x, sl) && StandsAtStore(StateAt(cfg, s0, acts, i), y, sl)
    ensures x == y
  {
    hide Exec, StandsAtStore;
    if i == 0 {
      NobodyStandsYet(s0, x, sl);
    } else {
      var s, a := StateAt(cfg, s0, acts, i - 1), acts[i - 1];
      if StandsAtStore(s, x, sl) && StandsAtStore(s, y, sl) { OneAtStore(cfg, s0, acts, sl, i - 1, x, y); }
      if !StandsAtStore(s, x, sl) { ComesToStore(cfg, s, a, x, sl); }
      if !StandsAtStore(s, y, sl) { ComesToStore(cfg, s, a, y, sl); }
      assert ReadWaits(cfg, s, a, sl);
      hide Commands;
    }
  }

  lemma NobodyStandsYet(s0: Sys, x: CallId, sl: Slot)
    requires Initial(s0)
    ensures !StandsAtStore(s0, x, sl)
  {
  }

  /** Two calls that have read the same JTI successfully have read it in the same slot. */
  lemma SameJtiSameSlot(s: Sys, x: CallId, y: CallId, jti: string, sl: Slot, other: Slot)
    requires UseInv(s) && JtisDistinct(s.reqs) && Presents(s, x, jti) && Presents(s, y, jti)
    requires StandsAtStore(s, x, sl) && StandsAtStore(s, y, other)
    ensures sl == other
  {
    hide FromCall, EntriesFromCalls, RotatedAreSpent, JtisDistinct;
    OneIssuer(s, sl, other, jti);
  }

  /**
   Where no rotation reads a slot while another stands between its read and its write of it,
   no JTI rotates twice, whatever else overlaps, sign-ins and revocations on that slot included.
   */
  lemma JtiRotatesOnce(cfg: Config, s0: Sys, acts: seq<Action>, x: CallId, y: CallId, jti: string)
    requires Initial(s0) && x != y && JtisDistinct(Run(cfg, s0, acts).reqs)
    requires forall sl: Slot :: ReadsApart(cfg, s0, acts, sl)
    requires Presents(Run(cfg, s0, acts), x, jti) && Presents(Run(cfg, s0, acts), y, jti)
    ensures !(HasRotated(Run(cfg, s0, acts), x) && HasRotated(Run(cfg, s0, acts), y))
  {
    hide Run, StateAt, Initial, JtisDistinct, ReadsApart, UseInv, StandsAtStore;
    StateAtIsRun(cfg, s0, acts, |acts|);
    assert acts[..|acts|] == acts;
    if HasRotated(Run(cfg, s0, acts), x) && HasRotated(Run(cfg, s0, acts), y) {
      var n := BothReadFirst(cfg, s0, acts, |acts|, x, y, jti);
      var s := StateAt(cfg, s0, acts, n);
      var sl := SlotOfStore(s, x);
      var other := SlotOfStore(s, y);
      UseInvAlways(cfg, s0, acts, n);
      RequestsGrow(cfg, s0, acts, n, |acts|, x);
      RequestsGrow(cfg, s0, acts, n, |acts|, y);
      SameJtiSameSlot(s, x, y, jti, sl, other);
      OneAtStore(cfg, s0, acts, sl, n, x, y);
    }
  }
}
