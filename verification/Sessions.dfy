/**
 Refresh-token rotation with reuse detection (section 4.14.2 of RFC 9700) over every
 interleaving of the commands of any number of calls. The reference is read off the
 commands alone: which one last wrote a JTI to a slot, with no revocation since. What a
 rotation finds in its slot is exact for all runs; where the chain needs a rotation's read
 and write to be atomic on their slot, PerSlot says so, and for that slot only.
 */
module Sessions {
  import opened Wrappers
  import opened GoTime
  import opened Model
  import opened Keys
  import opened TimedStore
  import opened Tables
  import opened Service
  import opened Atomic
  import opened Interleaved
  import KafkaProducer

  /** A slot: one device fingerprint and one user. */
  datatype Slot = Slot(device: string, user: string)

  function KeyOf(sl: Slot): Key { Refresh(sl.device, sl.user) }

  predicate NamesJti(req: Request) { req.Login? || req.Rotate? || req.Google? }

  /** The slot that a rotation addresses, once its token verifies. */
  function Addresses(cfg: Config, now: int, req: Request): Option<Slot> {
    if !req.Rotate? then None
    else match VerifyRefreshToken(req.token, cfg, now)
         case None => None
         case Some(c) => Some(Slot(req.device, c.userId))
  }

  // ---- the commands on a slot ----

  predicate SignsInOn(req: Request, pc: Pc, sl: Slot) {
    pc.SignInRefresh? && (req.Login? || req.Google?) && sl == Slot(req.device, pc.user.id)
  }

  predicate StoresOn(req: Request, pc: Pc, sl: Slot) {
    pc.RotateStore? && req.Rotate? && sl == Slot(req.device, pc.owner)
  }

  predicate RevokesOn(req: Request, pc: Pc, sl: Slot) {
    pc.RotateRevoke? && req.Rotate? && sl == Slot(req.device, pc.owner)
  }

  predicate ReadsOn(cfg: Config, now: int, req: Request, pc: Pc, sl: Slot) {
    pc.RotateRead? && Addresses(cfg, now, req) == Some(sl)
  }

  datatype SlotOp = Nothing | Issue(jti: string) | Drop

  function OpOf(req: Request, pc: Pc, sl: Slot): SlotOp {
    if SignsInOn(req, pc, sl) || StoresOn(req, pc, sl) then Issue(req.jti)
    else if RevokesOn(req, pc, sl) then Drop
    else Nothing
  }

  ghost function OpOn(s: Sys, a: Action, sl: Slot): SlotOp {
    if Commands(s, a) then OpOf(s.reqs[a.id], s.pcs[a.id], sl) else Nothing
  }

  /** The entry of a token issued at time t. */
  function IssuedEntry(cfg: Config, jti: string, t: int): Entry {
    var ttl := Seconds(cfg.refreshTokenExp);
    Entry(Jti(jti), if ttl > 0 then Some(t + ttl) else None)
  }

  /** What an operation leaves in the slot. */
  ghost predicate SlotMoves(cfg: Config, w: World, store: Store, sl: Slot, op: SlotOp) {
    match op
    case Nothing => SameEntry(w.store, store, KeyOf(sl))
    case Issue(jti) => KeyOf(sl) in store && store[KeyOf(sl)] == IssuedEntry(cfg, jti, w.now)
    case Drop => KeyOf(sl) !in store
  }

  lemma SignInOnSlot(cfg: Config, w: World, req: Request, pc: Pc, sl: Slot)
    requires pc.SignInRefresh? && SignInFits(req, pc) && SignsInOn(req, pc, sl)
    ensures SlotMoves(cfg, w, StepSignIn(cfg, w, req, pc).0.store, sl, OpOf(req, pc, sl))
  {
    hide StepGoogle;
  }

  lemma RotateOnSlot(cfg: Config, w: World, req: Request, pc: Pc, sl: Slot)
    requires req.Rotate? && RotatePc(pc)
    ensures SlotMoves(cfg, w, StepRotate(cfg, w, req, pc).0.store, sl, OpOf(req, pc, sl))
  {
    hide VerifyRefreshToken;
  }

  lemma SlotInFootprint(req: Request, pc: Pc, sl: Slot)
    requires Fits(req, pc) && !pc.Done? && !RotatePc(pc)
    ensures KeyOf(sl) in Footprint(req, pc) <==> SignsInOn(req, pc, sl)
    ensures !SignsInOn(req, pc, sl) ==> OpOf(req, pc, sl) == Nothing
  {
  }

  /** One command of any handler does to a slot what its kind says, and nothing else touches it. */
  lemma CommandOnSlot(cfg: Config, w: World, req: Request, pc: Pc, published: KafkaProducer.Outcome, sl: Slot)
    requires Fits(req, pc) && !pc.Done?
    ensures SlotMoves(cfg, w, StepWith(cfg, w, req, pc, published).0.store, sl, OpOf(req, pc, sl))
  {
    Dispatch(cfg, w, req, pc, published);
    hide StepWith, StepSend, StepVerify, StepSignIn, StepRotate, StepCache, Fits, OpOf, Footprint;
    if RotatePc(pc) {
      RotateOnSlot(cfg, w, req, pc, sl);
    } else {
      SlotInFootprint(req, pc, sl);
      if SignsInOn(req, pc, sl) { SignInOnSlot(cfg, w, req, pc, sl); }
      else { CommandFootprint(cfg, w, req, pc, published, KeyOf(sl)); }
    }
  }

  lemma ActionOnSlot(cfg: Config, s: Sys, a: Action, sl: Slot)
    ensures SlotMoves(cfg, s.w, Exec(cfg, s, a).w.store, sl, OpOn(s, a, sl))
  {
    hide StepWith, Fits, OpOf, IssuedEntry, FreshRequest;
    if Commands(s, a) {
      CommandOnSlot(cfg, s.w, s.reqs[a.id], s.pcs[a.id], a.published, sl);
    } else if a.Advance? && Enabled(s, a) {
      DoneStays(cfg, s, a.id, a.published);
    }
  }

  // ---- the reference ----

  /** What a slot should hold: nothing, or the JTI that was written last and when. */
  datatype Holder = Nobody | Holder(jti: string, issued: int)

  ghost function HolderAt(cfg: Config, s0: Sys, acts: seq<Action>, sl: Slot, i: nat): Holder
    requires i <= |acts|
  {
    if i == 0 then Nobody
    else
      var s := StateAt(cfg, s0, acts, i - 1);
      match OpOn(s, acts[i - 1], sl)
      case Nothing => HolderAt(cfg, s0, acts, sl, i - 1)
      case Issue(jti) => Holder(jti, s.w.now)
      case Drop => Nobody
  }

  /** Action j wrote jti to the slot and nothing wrote or revoked there up to action i. */
  ghost predicate IssuedAndKept(cfg: Config, s0: Sys, acts: seq<Action>, sl: Slot, j: nat, i: nat, jti: string)
    requires i <= |acts|
  {
    && j < i && OpOn(StateAt(cfg, s0, acts, j), acts[j], sl) == Issue(jti)
    && forall m | j < m < i :: OpOn(StateAt(cfg, s0, acts, m), acts[m], sl) == Nothing
  }

  lemma {:induction false} HolderIsKept(cfg: Config, s0: Sys, acts: seq<Action>, sl: Slot, i: nat) returns (j: nat)
    requires i <= |acts| && HolderAt(cfg, s0, acts, sl, i).Holder?
    ensures IssuedAndKept(cfg, s0, acts, sl, j, i, HolderAt(cfg, s0, acts, sl, i).jti)
    ensures StateAt(cfg, s0, acts, j).w.now == HolderAt(cfg, s0, acts, sl, i).issued
  {
    hide OpOn, StateAt;
    if OpOn(StateAt(cfg, s0, acts, i - 1), acts[i - 1], sl).Nothing? {
      j := HolderIsKept(cfg, s0, acts, sl, i - 1);
    } else {
      j := i - 1;
    }
  }

  lemma {:induction false} KeptIsHolder(cfg: Config, s0: Sys, acts: seq<Action>, sl: Slot, j: nat, i: nat, jti: string)
    requires i <= |acts| && IssuedAndKept(cfg, s0, acts, sl, j, i, jti)
    ensures HolderAt(cfg, s0, acts, sl, i) == Holder(jti, StateAt(cfg, s0, acts, j).w.now)
  {
    hide OpOn, StateAt;
    if j + 1 < i {
      assert OpOn(StateAt(cfg, s0, acts, i - 1), acts[i - 1], sl) == Nothing;
      KeptIsHolder(cfg, s0, acts, sl, j, i - 1, jti);
    }
  }

  /** The store's slot is what the reference says. */
  ghost predicate Holds(cfg: Config, store: Store, sl: Slot, h: Holder) {
    if h.Nobody? then KeyOf(sl) !in store
    else KeyOf(sl) in store && store[KeyOf(sl)] == IssuedEntry(cfg, h.jti, h.issued)
  }

  /** In every interleaving a slot's entry is exactly the one the last command on it left. */
  lemma {:induction false} SlotIsCurrent(cfg: Config, s0: Sys, acts: seq<Action>, sl: Slot, i: nat)
    requires i <= |acts| && KeyOf(sl) !in s0.w.store
    ensures Holds(cfg, StateAt(cfg, s0, acts, i).w.store, sl, HolderAt(cfg, s0, acts, sl, i))
  {
    hide OpOn, Exec, KeyOf, IssuedEntry;
    if i > 0 {
      SlotIsCurrent(cfg, s0, acts, sl, i - 1);
      ActionOnSlot(cfg, StateAt(cfg, s0, acts, i - 1), acts[i - 1], sl);
    }
  }

  // ---- a rotation's fate is decided by its read ----

  /** The call has read its slot successfully: it is about to store, or has answered Rotated. */
  predicate WillRotate(pc: Pc) { pc.RotateStore? || (pc.Done? && pc.response.Rotated?) }

  /** The call is a rotation past its read. */
  predicate HasRead(s: Sys, id: CallId) {
    id in s.reqs && id in s.pcs && s.reqs[id].Rotate? && !s.pcs[id].RotateRead?
  }

  lemma FateKept(cfg: Config, s: Sys, a: Action, id: CallId)
    requires HasRead(s, id)
    ensures var t := Exec(cfg, s, a);
            HasRead(t, id) && t.reqs[id] == s.reqs[id] && WillRotate(t.pcs[id]) == WillRotate(s.pcs[id])
  {
    if a.Advance? && a.id == id && Enabled(s, a) {
      if s.pcs[id].Done? { DoneStays(cfg, s, id, a.published); }
      else { Dispatch(cfg, s.w, s.reqs[id], s.pcs[id], a.published); }
    }
    hide StepWith;
  }

  lemma {:induction false} FateFixed(cfg: Config, s0: Sys, acts: seq<Action>, id: CallId, i: nat, k: nat)
    requires i <= k <= |acts| && HasRead(StateAt(cfg, s0, acts, i), id)
    ensures var s, t := StateAt(cfg, s0, acts, i), StateAt(cfg, s0, acts, k);
            HasRead(t, id) && t.reqs[id] == s.reqs[id] && WillRotate(t.pcs[id]) == WillRotate(s.pcs[id])
  {
    hide Exec, HasRead, WillRotate;
    if i < k {
      FateFixed(cfg, s0, acts, id, i, k - 1);
      FateKept(cfg, StateAt(cfg, s0, acts, k - 1), acts[k - 1], id);
    }
  }

  /** The read of a rotation: it goes on to store exactly when its JTI is the live one of its slot. */
  lemma ReadDecides(cfg: Config, s: Sys, a: Action, sl: Slot)
    requires Commands(s, a) && ReadsOn(cfg, s.w.now, s.reqs[a.id], s.pcs[a.id], sl)
    ensures var c, t := VerifyRefreshToken(s.reqs[a.id].token, cfg, s.w.now).value, Exec(cfg, s, a);
            && t.w == s.w && HasRead(t, a.id)
            && (WillRotate(t.pcs[a.id]) <==> c.jti != "" && SlotHolds(s.w, sl.device, sl.user, c.jti))
            && (WillRotate(t.pcs[a.id]) ==> t.pcs[a.id] == RotateStore(sl.user))
            && (!SlotLive(s.w, sl.device, sl.user) ==> t.pcs[a.id] == Done(SessionExpired))
  {
    Dispatch(cfg, s.w, s.reqs[a.id], s.pcs[a.id], a.published);
    hide StepWith, Fits, VerifyRefreshToken;
  }

  /** The JTI was the last one written, not revoked, and its lifetime is not over. */
  ghost predicate IsCurrent(cfg: Config, s0: Sys, acts: seq<Action>, sl: Slot, i: nat, jti: string)
    requires i <= |acts|
  {
    exists j: nat :: IssuedAndKept(cfg, s0, acts, sl, j, i, jti) &&
      (Seconds(cfg.refreshTokenExp) > 0 ==>
         StateAt(cfg, s0, acts, i).w.now < StateAt(cfg, s0, acts, j).w.now + Seconds(cfg.refreshTokenExp))
  }

  lemma HoldsExactlyTheCurrent(cfg: Config, s0: Sys, acts: seq<Action>, sl: Slot, i: nat, jti: string)
    requires i <= |acts| && KeyOf(sl) !in s0.w.store
    ensures SlotHolds(StateAt(cfg, s0, acts, i).w, sl.device, sl.user, jti) <==> IsCurrent(cfg, s0, acts, sl, i, jti)
  {
    hide HolderAt, StateAt, OpOn;
    SlotIsCurrent(cfg, s0, acts, sl, i);
    var h := HolderAt(cfg, s0, acts, sl, i);
    if h.Holder? {
      var j := HolderIsKept(cfg, s0, acts, sl, i);
    }
    forall j: nat | IssuedAndKept(cfg, s0, acts, sl, j, i, jti) ensures h == Holder(jti, StateAt(cfg, s0, acts, j).w.now) {
      KeptIsHolder(cfg, s0, acts, sl, j, i, jti);
    }
    hide IssuedAndKept;
  }

  /**
   The rotation chain, in every interleaving. A rotation whose token verifies at its read
   ends in Rotated exactly when at that read its JTI is the last one that a sign-in or
   rotation wrote to its slot, nothing has revoked the slot since, and the lifetime of that
   entry is not over.
   */
  lemma RotatesExactly(cfg: Config, s0: Sys, acts: seq<Action>, id: CallId, n: nat, k: nat, sl: Slot)
    requires n < k <= |acts| && KeyOf(sl) !in s0.w.store
    requires var s := StateAt(cfg, s0, acts, n);
             Commands(s, acts[n]) && acts[n].id == id && ReadsOn(cfg, s.w.now, s.reqs[id], s.pcs[id], sl)
    ensures var s, t := StateAt(cfg, s0, acts, n), StateAt(cfg, s0, acts, k);
            var jti := VerifyRefreshToken(s.reqs[id].token, cfg, s.w.now).value.jti;
            && id in t.pcs
            && (WillRotate(t.pcs[id]) <==> jti != "" && IsCurrent(cfg, s0, acts, sl, n, jti))
            && (t.pcs[id].Done? ==> (t.pcs[id].response.Rotated? <==> jti != "" && IsCurrent(cfg, s0, acts, sl, n, jti)))
  {
    hide IsCurrent, SlotHolds, SlotLive, StateAt, Exec, KeyOf, VerifyRefreshToken, HasRead, Fits;
    var s := StateAt(cfg, s0, acts, n);
    StateAtNext(cfg, s0, acts, n);
    ReadDecides(cfg, s, acts[n], sl);
    HoldsExactlyTheCurrent(cfg, s0, acts, sl, n, VerifyRefreshToken(s.reqs[id].token, cfg, s.w.now).value.jti);
    FateFixed(cfg, s0, acts, id, n + 1, k);
    ReadersHavePcs(StateAt(cfg, s0, acts, k), id);
  }

  lemma ReadersHavePcs(s: Sys, id: CallId)
    requires HasRead(s, id)
    ensures id in s.pcs && (s.pcs[id].Done? ==> (s.pcs[id].response.Rotated? <==> WillRotate(s.pcs[id])))
  {
  }

  /**
   Completeness, in every interleaving: the latest token written to a slot rotates there for
   as long as it verifies, because the stored JTI never expires before the token that carries it.
   */
  lemma LatestTokenIsAccepted(cfg: Config, s0: Sys, acts: seq<Action>, j: nat, n: nat, k: nat, sl: Slot, jti: string)
    requires j < n < k <= |acts| && KeyOf(sl) !in s0.w.store && jti != ""
    requires IssuedAndKept(cfg, s0, acts, sl, j, n, jti)
    requires var s := StateAt(cfg, s0, acts, n);
             && Commands(s, acts[n]) && s.pcs[acts[n].id].RotateRead?
             && s.reqs[acts[n].id].Rotate? && s.reqs[acts[n].id].device == sl.device
             && s.reqs[acts[n].id].token == GenerateRefreshToken(sl.user, cfg, StateAt(cfg, s0, acts, j).w.now, jti)
             && VerifyRefreshToken(s.reqs[acts[n].id].token, cfg, s.w.now).Some?
    ensures var t := StateAt(cfg, s0, acts, k);
            acts[n].id in t.pcs && WillRotate(t.pcs[acts[n].id])
  {
    var s, issued := StateAt(cfg, s0, acts, n), StateAt(cfg, s0, acts, j).w.now;
    RefreshTokenVerifiesExactly(sl.user, cfg, issued, jti, s.w.now);
    hide StateAt, Exec, IssuedAndKept, GenerateRefreshToken, VerifyRefreshToken, Commands, WillRotate;
    RotatesExactly(cfg, s0, acts, acts[n].id, n, k, sl);
    assert IsCurrent(cfg, s0, acts, sl, n, jti);
  }

  // ---- rotations atomic on their slot ----

  /** The call stands between a successful read of the slot and its write. */
  predicate StandsAtStore(s: Sys, t: CallId, sl: Slot) {
    t in s.reqs && t in s.pcs && StoresOn(s.reqs[t], s.pcs[t], sl)
  }

  /** The action is a command that reads or writes the slot. */
  ghost predicate Touches(cfg: Config, s: Sys, a: Action, sl: Slot) {
    Commands(s, a) &&
    var req, pc := s.reqs[a.id], s.pcs[a.id];
    SignsInOn(req, pc, sl) || StoresOn(req, pc, sl) || RevokesOn(req, pc, sl) || ReadsOn(cfg, s.w.now, req, pc, sl)
  }

  /** While another call stands between its read and its write of the slot, the action leaves the slot alone. */
  ghost predicate WaitsFor(cfg: Config, s: Sys, a: Action, sl: Slot) {
    Touches(cfg, s, a, sl) ==> forall t | StandsAtStore(s, t, sl) :: t == a.id
  }

  /**
   Between a rotation's read and its write of this slot no other call signs in on it, rotates
   it or revokes it. Whatever does not touch the slot may overlap.
   */
  ghost predicate PerSlot(cfg: Config, s0: Sys, acts: seq<Action>, sl: Slot) {
    forall n | 0 <= n < |acts| :: WaitsFor(cfg, StateAt(cfg, s0, acts, n), acts[n], sl)
  }

  /** Every call about to store presented the JTI that the slot still has. */
  ghost predicate StoresAreFresh(s: Sys, sl: Slot, h: Holder) {
    forall t | StandsAtStore(s, t, sl) ::
      s.reqs[t].token.Signed? && h.Holder? && s.reqs[t].token.claims.jti == h.jti
  }

  lemma ActionMovesOne(cfg: Config, s: Sys, a: Action, u: CallId)
    requires !(a.Advance? && a.id == u)
    ensures var t := Exec(cfg, s, a);
            u in t.pcs && u in t.reqs ==>
              || (u in s.pcs && u in s.reqs && s.pcs[u] == t.pcs[u] && s.reqs[u] == t.reqs[u])
              || !t.pcs[u].RotateStore?
  {
    hide StepWith;
  }

  /** A call comes to stand at its store only by a read that found its JTI in the slot. */
  lemma ComesToStore(cfg: Config, s: Sys, a: Action, u: CallId, sl: Slot)
    requires StandsAtStore(Exec(cfg, s, a), u, sl) && !StandsAtStore(s, u, sl)
    ensures Commands(s, a) && a.id == u && ReadsOn(cfg, s.w.now, s.reqs[u], s.pcs[u], sl)
    ensures Exec(cfg, s, a).w == s.w && Exec(cfg, s, a).reqs == s.reqs
    ensures var jti := VerifyRefreshToken(s.reqs[u].token, cfg, s.w.now).value.jti;
            jti != "" && SlotHolds(s.w, sl.device, sl.user, jti)
  {
    if !(a.Advance? && a.id == u) {
      ActionMovesOne(cfg, s, a, u);
    } else if Enabled(s, a) {
      if s.pcs[u].Done? { DoneStays(cfg, s, u, a.published); }
      else { StoreComesFromRead(cfg, s.w, s.reqs[u], s.pcs[u], a.published); }
    }
    hide StepWith, VerifyRefreshToken;
  }

  lemma StoreComesFromRead(cfg: Config, w: World, req: Request, pc: Pc, published: KafkaProducer.Outcome)
    requires Fits(req, pc) && !pc.Done? && StepWith(cfg, w, req, pc, published).1.RotateStore?
    ensures req.Rotate? && pc.RotateRead? && StepWith(cfg, w, req, pc, published).0 == w
    ensures var c := VerifyRefreshToken(req.token, cfg, w.now);
            && c.Some? && c.value.jti != "" && SlotHolds(w, req.device, c.value.userId, c.value.jti)
            && StepWith(cfg, w, req, pc, published).1 == RotateStore(c.value.userId)
  {
    if !RotatePc(pc) { OnlyRotationsStore(cfg, w, req, pc, published); }
    Dispatch(cfg, w, req, pc, published);
    hide StepWith, Fits, VerifyRefreshToken;
  }

  lemma OnlyRotationsStore(cfg: Config, w: World, req: Request, pc: Pc, published: KafkaProducer.Outcome)
    requires Fits(req, pc) && !pc.Done? && !RotatePc(pc)
    ensures !StepWith(cfg, w, req, pc, published).1.RotateStore?
  {
    Dispatch(cfg, w, req, pc, published);
    hide StepWith, Fits, StepSend, StepVerify, StepSignIn;
    if SendPc(pc) { SendStepFits(cfg, w, if pc.SendPublish? then req.(publish := published) else req, pc); }
    else if VerifyPc(pc) { VerifyStepFits(cfg, w, req, pc); }
    else if SignInPc(pc) { SignInStepFits(cfg, w, req, pc); }
  }

  ghost function HolderAfter(s: Sys, a: Action, sl: Slot, h: Holder): Holder {
    match OpOn(s, a, sl)
    case Nothing => h
    case Issue(jti) => Holder(jti, s.w.now)
    case Drop => Nobody
  }

  lemma NewStoreIsFresh(cfg: Config, s: Sys, a: Action, u: CallId, sl: Slot, h: Holder)
    requires Holds(cfg, s.w.store, sl, h) && StandsAtStore(Exec(cfg, s, a), u, sl) && !StandsAtStore(s, u, sl)
    ensures HolderAfter(s, a, sl, h) == h && h.Holder?
    ensures u in s.reqs && s.reqs[u].Rotate? && s.reqs[u].token.Signed? && s.reqs[u].token.claims.jti == h.jti
    ensures Exec(cfg, s, a).reqs == s.reqs
  {
    ComesToStore(cfg, s, a, u, sl);
    hide Exec;
  }

  lemma OldStoreWaits(cfg: Config, s: Sys, a: Action, u: CallId, sl: Slot, h: Holder)
    requires WaitsFor(cfg, s, a, sl) && StandsAtStore(s, u, sl) && StandsAtStore(Exec(cfg, s, a), u, sl)
    ensures HolderAfter(s, a, sl, h) == h && Exec(cfg, s, a).reqs[u] == s.reqs[u]
  {
    if a.Advance? && a.id == u && Commands(s, a) {
      Dispatch(cfg, s.w, s.reqs[u], s.pcs[u], a.published);
    }
    hide StepWith;
  }

  lemma FreshKept(cfg: Config, s: Sys, a: Action, sl: Slot, h: Holder)
    requires Holds(cfg, s.w.store, sl, h) && StoresAreFresh(s, sl, h) && WaitsFor(cfg, s, a, sl)
    ensures StoresAreFresh(Exec(cfg, s, a), sl, HolderAfter(s, a, sl, h))
  {
    hide Exec, HolderAfter, WaitsFor, Holds;
    forall u | StandsAtStore(Exec(cfg, s, a), u, sl)
      ensures var req := Exec(cfg, s, a).reqs[u];
              var h' := HolderAfter(s, a, sl, h);
              req.token.Signed? && h'.Holder? && req.token.claims.jti == h'.jti
    {
      if StandsAtStore(s, u, sl) { OldStoreWaits(cfg, s, a, u, sl, h); } else { NewStoreIsFresh(cfg, s, a, u, sl, h); }
    }
  }

  lemma {:induction false} FreshAlways(cfg: Config, s0: Sys, acts: seq<Action>, sl: Slot, i: nat)
    requires i <= |acts| && KeyOf(sl) !in s0.w.store && s0.pcs == map[] && PerSlot(cfg, s0, acts, sl)
    ensures StoresAreFresh(StateAt(cfg, s0, acts, i), sl, HolderAt(cfg, s0, acts, sl, i))
  {
    hide Exec, WaitsFor, Holds, OpOn;
    if i > 0 {
      FreshAlways(cfg, s0, acts, sl, i - 1);
      SlotIsCurrent(cfg, s0, acts, sl, i - 1);
      FreshKept(cfg, StateAt(cfg, s0, acts, i - 1), acts[i - 1], sl, HolderAt(cfg, s0, acts, sl, i - 1));
    }
  }

  /**
   With rotations atomic on the slot, a rotation that comes to write it presents the JTI that
   is the last one written there at that very moment: the successful rotations of a slot
   form a chain from each sign-in.
   */
  lemma RotationsFormAChain(cfg: Config, s0: Sys, acts: seq<Action>, sl: Slot, n: nat, t: CallId)
    requires Initial(s0) && n <= |acts| && PerSlot(cfg, s0, acts, sl) && StandsAtStore(StateAt(cfg, s0, acts, n), t, sl)
    ensures var req := StateAt(cfg, s0, acts, n).reqs[t];
            req.token.Signed? && exists j: nat :: IssuedAndKept(cfg, s0, acts, sl, j, n, req.token.claims.jti)
  {
    hide Exec, PerSlot, Initial, IssuedAndKept, StateAt;
    InitiallyEmpty(s0, sl);
    FreshAlways(cfg, s0, acts, sl, n);
    var j := HolderIsKept(cfg, s0, acts, sl, n);
  }

  lemma InitiallyEmpty(s0: Sys, sl: Slot)
    requires Initial(s0)
    ensures KeyOf(sl) !in s0.w.store && s0.pcs == map[]
  {
  }

  // ---- reuse detection ----

  /** A verified token is refused: its read finds no live session, or its revocation of a stale one is executed. */
  ghost predicate Refuses(cfg: Config, s: Sys, a: Action, sl: Slot) {
    Commands(s, a) &&
    var req, pc := s.reqs[a.id], s.pcs[a.id];
    RevokesOn(req, pc, sl) || (ReadsOn(cfg, s.w.now, req, pc, sl) && !SlotLive(s.w, sl.device, sl.user))
  }

  ghost predicate SignsIn(s: Sys, a: Action, sl: Slot) {
    Commands(s, a) && SignsInOn(s.reqs[a.id], s.pcs[a.id], sl)
  }

  /** The slot has no live session and nobody is about to write one without reading it again. */
  ghost predicate Settled(s: Sys, sl: Slot) {
    Dead(s.w, sl) && forall t :: !StandsAtStore(s, t, sl)
  }

  ghost predicate Dead(w: World, sl: Slot) {
    forall j | j != "" :: !SlotHolds(w, sl.device, sl.user, j)
  }

  lemma DeadStays(w: World, w': World, sl: Slot)
    requires Dead(w, sl) && w.now <= w'.now
    requires SameEntry(w.store, w'.store, KeyOf(sl)) || KeyOf(sl) !in w'.store
    ensures Dead(w', sl)
  {
    forall j | j != "" ensures SlotHolds(w', sl.device, sl.user, j) ==> SlotHolds(w, sl.device, sl.user, j) {}
  }

  lemma NoIssueWhenSettled(s: Sys, a: Action, sl: Slot)
    requires Settled(s, sl) && !SignsIn(s, a, sl)
    ensures !OpOn(s, a, sl).Issue?
  {
    hide Fits, Dead;
    if Commands(s, a) { assert !StandsAtStore(s, a.id, sl); }
  }

  lemma NobodyStandsAfterRefusal(cfg: Config, s: Sys, a: Action, sl: Slot, t: CallId)
    requires Refuses(cfg, s, a, sl) && WaitsFor(cfg, s, a, sl)
    ensures !StandsAtStore(Exec(cfg, s, a), t, sl)
  {
    hide Exec;
    if StandsAtStore(Exec(cfg, s, a), t, sl) && !StandsAtStore(s, t, sl) { ComesToStore(cfg, s, a, t, sl); }
    hide VerifyRefreshToken;
  }

  lemma RefusalSettles(cfg: Config, s: Sys, a: Action, sl: Slot)
    requires Refuses(cfg, s, a, sl) && WaitsFor(cfg, s, a, sl)
    ensures Settled(Exec(cfg, s, a), sl)
  {
    forall t ensures !StandsAtStore(Exec(cfg, s, a), t, sl) { NobodyStandsAfterRefusal(cfg, s, a, sl, t); }
    if RevokesOn(s.reqs[a.id], s.pcs[a.id], sl) { ActionOnSlot(cfg, s, a, sl); }
    else { ReadDecides(cfg, s, a, sl); }
    hide Exec, StandsAtStore;
  }

  lemma OthersStillStand(cfg: Config, s: Sys, a: Action, sl: Slot, t: CallId)
    requires StandsAtStore(s, t, sl) && !(a.Advance? && a.id == t)
    ensures StandsAtStore(Exec(cfg, s, a), t, sl)
  {
    hide StepWith;
  }

  /** A rotation that stands at its write opens the slot, whatever was refused there meanwhile. */
  lemma LateStoreOpens(cfg: Config, s: Sys, sl: Slot, t: CallId, published: KafkaProducer.Outcome)
    requires StandsAtStore(s, t, sl)
    ensures SlotHolds(Exec(cfg, s, Advance(t, published)).w, sl.device, sl.user, s.reqs[t].jti)
  {
    assert Fits(s.reqs[t], s.pcs[t]) && Commands(s, Advance(t, published));
    ActionOnSlot(cfg, s, Advance(t, published), sl);
    TimeGoesOn(cfg, s, Advance(t, published));
    hide Exec, Fits;
  }

  lemma SettledKept(cfg: Config, s: Sys, a: Action, sl: Slot)
    requires Settled(s, sl) && !SignsIn(s, a, sl)
    ensures Settled(Exec(cfg, s, a), sl)
  {
    hide Exec, Fits, SlotHolds;
    forall t ensures !StandsAtStore(Exec(cfg, s, a), t, sl) {
      if StandsAtStore(Exec(cfg, s, a), t, sl) { ComesToStore(cfg, s, a, t, sl); }
    }
    hide Commands, StandsAtStore, OpOn;
    ActionOnSlot(cfg, s, a, sl);
    TimeGoesOn(cfg, s, a);
    NoIssueWhenSettled(s, a, sl);
    DeadStays(s.w, Exec(cfg, s, a).w, sl);
  }

  /** Until the next sign-in on it a settled slot stays settled. */
  lemma {:induction false} SettledUntilSignIn(cfg: Config, s0: Sys, acts: seq<Action>, sl: Slot, i: nat, k: nat)
    requires i <= k <= |acts| && Settled(StateAt(cfg, s0, acts, i), sl)
    requires forall m | i <= m < k :: !SignsIn(StateAt(cfg, s0, acts, m), acts[m], sl)
    ensures Settled(StateAt(cfg, s0, acts, k), sl)
  {
    hide Exec, Settled, SignsIn;
    if i < k {
      SettledUntilSignIn(cfg, s0, acts, sl, i, k - 1);
      SettledKept(cfg, StateAt(cfg, s0, acts, k - 1), acts[k - 1], sl);
    }
  }

  /**
   Reuse detection. Once a verified token is refused on a slot, stale or not, while no other
   rotation stands at its write there, every rotation that reads the slot later fails, the
   current token's included, until someone signs in on it, whatever else overlaps.
   */
  lemma ReuseRevokesTheSlot(cfg: Config, s0: Sys, acts: seq<Action>, sl: Slot, i: nat, n: nat, k: nat)
    requires i < n < k <= |acts|
    requires Refuses(cfg, StateAt(cfg, s0, acts, i), acts[i], sl) && WaitsFor(cfg, StateAt(cfg, s0, acts, i), acts[i], sl)
    requires forall m | i < m < n :: !SignsIn(StateAt(cfg, s0, acts, m), acts[m], sl)
    requires var s := StateAt(cfg, s0, acts, n);
             Commands(s, acts[n]) && ReadsOn(cfg, s.w.now, s.reqs[acts[n].id], s.pcs[acts[n].id], sl)
    ensures var t := StateAt(cfg, s0, acts, k);
            acts[n].id in t.pcs && !WillRotate(t.pcs[acts[n].id])
  {
    hide Exec, SignsIn, Refuses, WaitsFor, StateAt, Settled, WillRotate, HasRead, Fits, VerifyRefreshToken;
    StateAtNext(cfg, s0, acts, i);
    RefusalSettles(cfg, StateAt(cfg, s0, acts, i), acts[i], sl);
    SettledUntilSignIn(cfg, s0, acts, sl, i + 1, n);
    StateAtNext(cfg, s0, acts, n);
    SettledRefuses(cfg, StateAt(cfg, s0, acts, n), acts[n], sl);
    FateFixed(cfg, s0, acts, acts[n].id, n + 1, k);
    ReadersHavePcs(StateAt(cfg, s0, acts, k), acts[n].id);
  }

  lemma SettledRefuses(cfg: Config, s: Sys, a: Action, sl: Slot)
    requires Settled(s, sl) && Commands(s, a) && ReadsOn(cfg, s.w.now, s.reqs[a.id], s.pcs[a.id], sl)
    ensures HasRead(Exec(cfg, s, a), a.id) && !WillRotate(Exec(cfg, s, a).pcs[a.id])
  {
    ReadDecides(cfg, s, a, sl);
    hide Exec, WillRotate, HasRead;
  }

  /** Nobody signs in on the slot in this continuation. */
  ghost predicate NoSignIn(cfg: Config, s: Sys, acts: seq<Action>, sl: Slot) {
    forall m | 0 <= m < |acts| :: !SignsIn(StateAt(cfg, s, acts, m), acts[m], sl)
  }

  lemma SettledHolds(cfg: Config, s: Sys, acts: seq<Action>, sl: Slot)
    requires Settled(s, sl) && NoSignIn(cfg, s, acts, sl)
    ensures Dead(Run(cfg, s, acts).w, sl)
  {
    hide Exec, SignsIn, StateAt, Run, Dead, StandsAtStore;
    assert StateAt(cfg, s, acts, 0) == s by { StateAtStarts(cfg, s, acts); }
    SettledUntilSignIn(cfg, s, acts, sl, 0, |acts|);
    StateAtIsRun(cfg, s, acts, |acts|);
    assert acts[..|acts|] == acts;
  }

  lemma StateAtStarts(cfg: Config, s: Sys, acts: seq<Action>)
    ensures StateAt(cfg, s, acts, 0) == s
  {
  }

  /** The write of a call that stands at it is a continuation without sign-in that opens the slot. */
  lemma OneStoreOpens(cfg: Config, s: Sys, sl: Slot, t: CallId)
    requires StandsAtStore(s, t, sl) && s.reqs[t].jti != ""
    ensures var acts := [Advance(t, KafkaProducer.Delivered)];
            NoSignIn(cfg, s, acts, sl) && !Dead(Run(cfg, s, acts).w, sl)
  {
    var a := Advance(t, KafkaProducer.Delivered);
    LateStoreOpens(cfg, s, sl, t, KafkaProducer.Delivered);
    assert [a][..0] == [] && Run(cfg, s, [a]) == Exec(cfg, s, a);
    hide Exec;
  }

  /**
   A refusal keeps its slot shut in every continuation until the next sign-in on it if and
   only if no other rotation stands at its write there.
   */
  lemma RefusalHoldsExactly(cfg: Config, s: Sys, a: Action, sl: Slot)
    requires Refuses(cfg, s, a, sl) && forall t | StandsAtStore(s, t, sl) :: s.reqs[t].jti != ""
    ensures (forall acts | NoSignIn(cfg, Exec(cfg, s, a), acts, sl) :: Dead(Run(cfg, Exec(cfg, s, a), acts).w, sl))
            <==> forall t | StandsAtStore(s, t, sl) :: t == a.id
  {
    var s' := Exec(cfg, s, a);
    if forall t | StandsAtStore(s, t, sl) :: t == a.id {
      RefusalSettles(cfg, s, a, sl);
      forall acts | NoSignIn(cfg, s', acts, sl) ensures Dead(Run(cfg, s', acts).w, sl) { SettledHolds(cfg, s', acts, sl); }
    } else {
      var t :| StandsAtStore(s, t, sl) && t != a.id;
      OthersStillStand(cfg, s, a, sl, t);
      RequestsStay(cfg, s, a, t);
      OneStoreOpens(cfg, s', sl, t);
    }
    hide Exec, Refuses, Dead, NoSignIn, Run;
  }
}
