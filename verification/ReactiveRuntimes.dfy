/** Runtime claims (registry.go): which runtimes are registered, and what keeps them there. */
module ReactiveRuntimes {
  import opened Options
  import opened Reactive
  import opened ReactiveWf
  import opened ReactiveDriver
  import opened ReactiveQuiescence

  /** The frame is a load that took runtime `r` and has neither attached a fiber nor given it back. */
  predicate Claims(fr: Frame, r: nat) {
    fr.Load? &&
    match fr.ld
    case LdNew(q) => q == r
    case LdEnter(q, _) => q == r
    case LdAttach(q, _, _) => q == r
    case LdDiscard(q, _) => q == r
    case _ => false
  }

  function Claimants(pool: map<nat, Frame>, r: nat): set<nat> {
    set t | t in pool && Claims(pool[t], r)
  }

  predicate IsRegistered(c: Core, r: nat) {
    r in c.rts && c.rts[r].def in c.runtimes && c.runtimes[c.rts[r].def] == r
  }

  /** A runtime is registered exactly while it has a claim or a fiber, and its claims are the loads in
      flight. */
  predicate RuntimeCounted(c: Core, pool: map<nat, Frame>, r: nat) {
    r in c.rts ==>
      && c.rts[r].claims == |Claimants(pool, r)|
      && (IsRegistered(c, r) <==> InUse(c.rts[r]))
  }

  /** The unpublished fiber a load still carries. */
  function Carried(fr: Frame): Option<nat> {
    if !fr.Load? then None else
    match fr.ld
    case LdEnter(_, f) => Some(f)
    case LdAttach(_, f, _) => Some(f)
    case LdDiscard(_, f) => Some(f)
    case _ => None
  }

  predicate Removing(fr: Frame, f: nat) {
    fr == Disposing(f, DsRemove)
  }

  predicate InRuntime(c: Core, f: nat) {
    f in c.fibers && c.fibers[f].fixed.runtime in c.rts && f in c.rts[c.fibers[f].fixed.runtime].fibers
  }

  /** Fibers enter a runtime when published and leave it in their disposal's removal step. */
  ghost predicate FiberPlaced(c: Core, pool: map<nat, Frame>, f: nat) {
    f in c.fibers && f != 0 ==>
      && (!c.fibers[f].published ==> !c.fibers[f].disposed)
      && (InService(c, f) ==> InRuntime(c, f))
      && (c.fibers[f].disposed && InRuntime(c, f) ==> exists t :: t in pool && Removing(pool[t], f))
  }

  predicate FramePlaced(c: Core, fr: Frame) {
    && (Carried(fr).Some? ==> Carried(fr).value in c.fibers && !c.fibers[Carried(fr).value].published)
    && (fr.Disposing? && fr.ds == DsRemove && fr.f != 0 ==>
        fr.f in c.fibers && c.fibers[fr.f].disposed && InRuntime(c, fr.f))
  }

  predicate Apart(a: Frame, b: Frame) {
    && (Carried(a).Some? ==> Carried(a) != Carried(b))
    && (a.Disposing? && a.ds == DsRemove && a.f != 0 ==> a != b)
  }

  ghost predicate RuntimesOk(s: Sys) {
    && (forall r :: r in s.core.rts ==> RuntimeCounted(s.core, s.pool, r))
    && (forall f :: f in s.core.fibers ==> FiberPlaced(s.core, s.pool, f))
    && (forall t :: t in s.pool ==> FramePlaced(s.core, s.pool[t]))
    && (forall t, u :: t in s.pool && u in s.pool && t != u ==> Apart(s.pool[t], s.pool[u]))
  }

  /** What the rest of the machine uses: whatever is in service is found by a notification's walk. */
  lemma PlacedAttached(s: Sys)
    ensures SysWf(s) && RuntimesOk(s) ==> AllAttached(s.core)
  {
    hide SysWf;
    if SysWf(s) && RuntimesOk(s) {
      var c := s.core;
      forall f | InService(c, f) ensures Attached(c, f) {
        assert FiberPlaced(c, s.pool, f);
        assert RuntimeCounted(c, s.pool, c.fibers[f].fixed.runtime);
      }
    }
  }

  // ----- steps that leave runtimes alone -----

  predicate WritesRuntimes(fr: Frame) {
    || (fr.Disposing? && fr.ds == DsRemove)
    || (fr.Load? && (fr.ld.LdClaim? || fr.ld.LdAttach? || fr.ld.LdDiscard?))
  }

  lemma SameRuntimes(c: Core, fr: Frame, ch: Choice)
    requires Executes(c, fr, ch) && !WritesRuntimes(fr)
    ensures Exec(c, fr, ch).core.rts == c.rts && Exec(c, fr, ch).core.runtimes == c.runtimes
  {
    hide CoreWf, PcWf, ExecDriver, ExecUnload, ExecProvide, ExecDisposer, ExecEffect, Accepts, DriverFiber;
    hide ExecNotify, FirstSection, NewFiber;
    NotifyKeeps(c, fr, ch);
    match fr
    case Refresh(_) =>
    case Driver(f, pc) => OwnStep(c, f, pc, ch);
    case RootUnload(f, u) => UnloadWrites(c, f, u, ch);
    case NotifyProvided(_) =>
    case NotifyNames(_, _) =>
    case Notify(_, _) =>
    case Wake(_) =>
    case Provide(_, _, _, _, _, _) => ProvideLight(c, fr, ch);
    case Effect(_, _, _) => EffectLight(c, fr, ch);
    case Disposer(_, _) => DisposerLight(c, fr, ch);
    case Release(_) => DisposerLight(c, fr, ch);
    case Disposing(f, ds) =>
    case Restarting(_, _, _) =>
    case Load(_, _, _, _, _, ld) =>
      match ld {
        case LdGate => case LdClaim => case LdNew(_) => case LdEnter(_, _) =>
        case LdAttach(_, _, _) => case LdInstall(_, _, _) => case LdStart(_, _, _) => case LdDiscard(_, _) =>
      }
  }

  // ----- counting claims -----

  /** One activation's step changes one member of a claim set at most. */
  lemma ClaimantsStep(s: Sys, t: nat, ch: Choice, s': Sys, r: nat)
    ensures SysWf(s) && Steps(s, t, ch, s') ==>
      var cont := Exec(s.core, s.pool[t], ch).cont;
      Claimants(s'.pool, r) == if cont.Some? && Claims(cont.value, r) then Claimants(s.pool, r) + {t}
          else Claimants(s.pool, r) - {t}
  {
    hide CoreWf, FrameWf, Exec;
    if SysWf(s) && Steps(s, t, ch, s') {
      CallKinds(s.core, s.pool[t], ch);
      assert s.next !in s.pool;
    }
  }

  /** The claims a load step takes or gives back. */
  function ClaimDelta(c: Core, fr: Frame, r: nat): int {
    if !fr.Load? then 0 else
    match fr.ld
    case LdClaim => if (if fr.def in c.runtimes then c.runtimes[fr.def] else c.runtimeSeq + 1) == r then 1 else 0
    case LdAttach(q, _, _) => if q == r then -1 else 0
    case LdDiscard(q, _) => if q == r then -1 else 0
    case _ => 0
  }

  lemma ContClaims(c: Core, fr: Frame, ch: Choice, r: nat)
    ensures Executes(c, fr, ch) ==>
      var cont := Exec(c, fr, ch).cont;
      && (ClaimDelta(c, fr, r) == 0 ==> (cont.Some? && Claims(cont.value, r)) == Claims(fr, r))
      && (ClaimDelta(c, fr, r) == 1 ==> cont.Some? && Claims(cont.value, r) && !Claims(fr, r))
      && (ClaimDelta(c, fr, r) == -1 ==> !(cont.Some? && Claims(cont.value, r)) && Claims(fr, r))
  {
    hide CoreWf, PcWf, ExecDriver, ExecUnload, ExecProvide, ExecDisposer, ExecEffect, Accepts;
    match fr
    case Refresh(_) =>
    case Driver(f, pc) => ContDriver(c, f, pc, ch);
    case RootUnload(f, u) =>
    case NotifyProvided(_) =>
    case NotifyNames(_, _) =>
    case Notify(_, _) =>
    case Wake(_) =>
    case Provide(_, _, _, _, _, _) => ContProvide(c, fr, ch);
    case Effect(_, _, _) => ContEffect(c, fr, ch);
    case Disposer(_, _) => ContDisposer(c, fr, ch);
    case Release(_) => ContDisposer(c, fr, ch);
    case Disposing(f, ds) =>
    case Restarting(_, _, _) =>
    case Load(_, _, _, _, _, ld) =>
      match ld {
        case LdGate => case LdClaim => case LdNew(_) => case LdEnter(_, _) =>
        case LdAttach(_, _, _) => case LdInstall(_, _, _) => case LdStart(_, _, _) => case LdDiscard(_, _) =>
      }
  }

  lemma ContProvide(c: Core, fr: Frame, ch: Choice)
    ensures Fits(c, fr) && fr.Provide? ==>
      var cont := ExecProvide(c, fr, ch).cont; cont.Some? ==> cont.value.Provide? || cont.value.Disposer?
  {
    hide CoreWf, Fits;
    if Fits(c, fr) && fr.Provide? {
      match fr.pv
      case PvAlloc => case PvGate(_) => case PvEnter(_) => case PvRegister(_) =>
      case PvAbort(_) => case PvSnapshot(_) => case PvNotify(_) => case PvInstall(_) =>
    }
  }

  predicate EndsInEffect(cont: Option<Frame>) {
    cont.Some? ==> cont.value.Effect? || cont.value.Disposer?
  }

  lemma ContUnwind(c: Core, fr: Frame, e: nat, f: nat, ch: Choice)
    ensures f in c.fibers && ExecUnwind(c, fr, e, f, ch).Ran? ==>
      var cont := ExecUnwind(c, fr, e, f, ch).cont; cont.None? || cont == Some(fr)
  {
    hide Unhandled;
  }

  lemma ContEffect(c: Core, fr: Frame, ch: Choice)
    ensures Fits(c, fr) && fr.Effect? && ExecEffect(c, fr, ch).Ran? ==> EndsInEffect(ExecEffect(c, fr, ch).cont)
  {
    hide CoreWf, ExecUnwind, Accepts, PublishNext, PcWf;
    if Fits(c, fr) && fr.Effect? && ExecEffect(c, fr, ch).Ran? {
      if fr.fx.FxAbandon? { ContUnwind(c, fr, fr.fx.e, fr.f, ch); }
    }
  }

  lemma ContDisposer(c: Core, fr: Frame, ch: Choice)
    ensures (Fits(c, fr) && (fr.Release? || fr.Disposer?) && ExecDisposer(c, fr, ch).Ran?) ==>
      EndsInEffect(ExecDisposer(c, fr, ch).cont)
  {
    hide CoreWf, ExecUnwind, PcWf;
    if (Fits(c, fr) && (fr.Release? || fr.Disposer?) && ExecDisposer(c, fr, ch).Ran?) {
      BindingFacts(c, fr.e);
      if fr.Disposer? && fr.un.UnDone? { ContUnwind(c, fr, fr.e, c.store[fr.e].provider, ch); }
    }
  }

  ghost predicate RegisteredInUse(c: Core) {
    forall r :: r in c.rts ==> c.rts[r].claims >= 0 && (IsRegistered(c, r) <==> InUse(c.rts[r]))
  }

  predicate CountsRight(c: Core, c': Core, r: nat, delta: int) {
    r in c'.rts ==>
      && c'.rts[r].claims == (if r in c.rts then c.rts[r].claims else 0) + delta
      && (IsRegistered(c', r) <==> InUse(c'.rts[r]))
  }

  lemma ClaimCounts(c: Core, fr: Frame, ch: Choice, r: nat)
    ensures Fits(c, fr) && RegisteredInUse(c) && fr.Load? && fr.ld.LdClaim? ==>
      CountsRight(c, ExecLoad(c, fr, ch).core, r, ClaimDelta(c, fr, r))
  {
    hide FrameWf, PublishNext, AttachFiber, Discard, NewFiber, FirstSection, Accepts;
    if Fits(c, fr) && RegisteredInUse(c) && fr.Load? && fr.ld.LdClaim? {
      if fr.def !in c.runtimes {
        assert c.runtimeSeq + 1 !in c.rts by {
          if c.runtimeSeq + 1 in c.rts { RuntimeFacts(c, c.runtimeSeq + 1); }
        }
      }
      if r in c.rts { assert IsRegistered(c, r) <==> InUse(c.rts[r]); }
      hide CoreWf, RuntimeWf;
    }
  }

  lemma AttachCounts(c: Core, fr: Frame, ch: Choice, r: nat)
    ensures Fits(c, fr) && RegisteredInUse(c) && fr.Load? && fr.ld.LdAttach? && c.rts[fr.ld.r].claims > 0 ==>
      CountsRight(c, ExecLoad(c, fr, ch).core, r, ClaimDelta(c, fr, r))
  {
    hide CoreWf, PublishNext, PcWf;
    if Fits(c, fr) && RegisteredInUse(c) && fr.Load? && fr.ld.LdAttach? && c.rts[fr.ld.r].claims > 0 {
      if r in c.rts { assert IsRegistered(c, r) <==> InUse(c.rts[r]); }
    }
  }

  /** Sweeping after a change of runtime `q`, which was in use before it. */
  lemma SweepCounts(c: Core, q: nat, rt: Runtime, r: nat)
    ensures CoreWf(c) && RegisteredInUse(c) && q in c.rts && InUse(c.rts[q]) && rt.def == c.rts[q].def ==>
      CountsRight(c, Sweep(c.(rts := c.rts[q := rt]), q), r, if r == q then rt.claims - c.rts[q].claims else 0)
  {
    hide RuntimeWf, SlotWf, BindingWf, FiberWf;
    if CoreWf(c) && RegisteredInUse(c) && q in c.rts && InUse(c.rts[q]) && rt.def == c.rts[q].def {
      if r in c.rts { assert IsRegistered(c, r) <==> InUse(c.rts[r]); }
      assert IsRegistered(c, q);
    }
  }

  lemma WriteCounts(c: Core, fr: Frame, ch: Choice, r: nat)
    requires Fits(c, fr) && RegisteredInUse(c) && WritesRuntimes(fr)
    requires fr.Load? && (fr.ld.LdAttach? || fr.ld.LdDiscard?) ==> c.rts[fr.ld.r].claims > 0
    requires fr.Disposing? && fr.f != 0 ==> InRuntime(c, fr.f)
    ensures CountsRight(c, Exec(c, fr, ch).core, r, ClaimDelta(c, fr, r))
  {
    hide CoreWf, RuntimeWf, PcWf, RegisteredInUse, CountsRight, Sweep, ExecDriver;
    if fr.Disposing? {
      CoreFacts(c, fr.f);
      if fr.f == 0 {
        CountsSame(c, r);
      } else {
        var q := c.fibers[fr.f].fixed.runtime;
        SweepCounts(c, q, c.rts[q].(fibers := c.rts[q].fibers - {fr.f}), r);
      }
    } else {
      match fr.ld
      case LdClaim => ClaimCounts(c, fr, ch, r);
      case LdAttach(_, _, _) => AttachCounts(c, fr, ch, r);
      case LdDiscard(q, _) => SweepCounts(c, q, c.rts[q].(claims := c.rts[q].claims - 1), r);
    }
  }

  lemma CountsSame(c: Core, r: nat)
    ensures RegisteredInUse(c) ==> CountsRight(c, c, r, 0)
  {}

  lemma CountedCore(s: Sys)
    ensures RuntimesOk(s) ==> RegisteredInUse(s.core)
  {
    if RuntimesOk(s) {
      forall r | r in s.core.rts ensures s.core.rts[r].claims >= 0
          && (IsRegistered(s.core, r) <==> InUse(s.core.rts[r])) {
        assert RuntimeCounted(s.core, s.pool, r);
      }
    }
  }

  /** One activation enters or leaves a claim set as its claim is taken or given back. */
  lemma ClaimantsMove(was: set<nat>, now: set<nat>, t: nat, claimed: bool, claims: bool, delta: int)
    requires (t in was <==> claimed) && now == (if claims then was + {t} else was - {t})
    requires (delta == 0 && claims == claimed) || (delta == 1 && claims && !claimed)
      || (delta == -1 && !claims && claimed)
    ensures |now| == |was| + delta
  {}

  lemma DeltaRange(c: Core, fr: Frame, r: nat)
    ensures -1 <= ClaimDelta(c, fr, r) <= 1
  {}

  lemma CountedStep(s: Sys, t: nat, ch: Choice, s': Sys, r: nat)
    ensures SysWf(s) && RuntimesOk(s) && Steps(s, t, ch, s') ==> RuntimeCounted(s'.core, s'.pool, r)
  {
    hide CoreWf, FrameWf, Exec, RegisteredInUse, InUse, ClaimDelta, Claims, FramePlaced, FiberPlaced, Apart;
    if SysWf(s) && RuntimesOk(s) && Steps(s, t, ch, s') {
      var c, fr, c' := s.core, s.pool[t], s'.core;
      CountedCore(s);
      ClaimantsStep(s, t, ch, s', r);
      ContClaims(c, fr, ch, r);
      DeltaRange(c, fr, r);
      var cont := Exec(c, fr, ch).cont;
      ClaimantsMove(Claimants(s.pool, r), Claimants(s'.pool, r), t, Claims(fr, r), cont.Some?
          && Claims(cont.value, r), ClaimDelta(c, fr, r));
      assert RuntimeCounted(c, s.pool, r);
      if r !in c.rts { FreshRuntime(s, r); }
      if WritesRuntimes(fr) {
        ClaimHeld(s, t);
        RemovalPlaced(s, t);
        WriteCounts(c, fr, ch, r);
      } else {
        SameRuntimes(c, fr, ch);
        NoDelta(c, fr, r);
      }
    }
  }

  lemma RemovalPlaced(s: Sys, t: nat)
    ensures SysWf(s) && RuntimesOk(s) && t in s.pool ==>
      s.pool[t].Disposing? && s.pool[t].ds == DsRemove && s.pool[t].f != 0 ==> InRuntime(s.core, s.pool[t].f)
  {
    hide SysWf;
    if SysWf(s) && RuntimesOk(s) && t in s.pool {
      assert FramePlaced(s.core, s.pool[t]);
    }
  }

  lemma NoDelta(c: Core, fr: Frame, r: nat)
    ensures !WritesRuntimes(fr) ==> ClaimDelta(c, fr, r) == 0
  {}

  /** A load about to give its claim back, or to turn it into a fiber, holds it. */
  lemma ClaimHeld(s: Sys, t: nat)
    ensures SysWf(s) && RuntimesOk(s) && t in s.pool ==>
      var fr, c := s.pool[t], s.core;
      fr.Load? && (fr.ld.LdAttach? || fr.ld.LdDiscard?) ==> fr.ld.r in c.rts && c.rts[fr.ld.r].claims > 0
  {
    hide CoreWf, PcWf;
    if SysWf(s) && RuntimesOk(s) && t in s.pool {
      var fr := s.pool[t];
      assert FrameWf(s.core, fr);
      if fr.Load? && (fr.ld.LdAttach? || fr.ld.LdDiscard?) {
        assert RuntimeCounted(s.core, s.pool, fr.ld.r);
        assert t in Claimants(s.pool, fr.ld.r);
      }
    }
  }

  /** Nothing claims a runtime that does not exist. */
  lemma FreshRuntime(s: Sys, r: nat)
    ensures SysWf(s) && r !in s.core.rts ==> Claimants(s.pool, r) == {}
  {
    hide CoreWf;
    if SysWf(s) && r !in s.core.rts {
      forall t | t in s.pool ensures !Claims(s.pool[t], r) { assert FrameWf(s.core, s.pool[t]); }
    }
  }

  // ----- where fibers are -----

  /** The only steps that dispose of, publish or move fiber `f`. */
  predicate PlaceStep(c: Core, c': Core, fr: Frame, f: nat) {
    && f in c.fibers && f in c'.fibers && c'.fibers[f].fixed == c.fibers[f].fixed
    && c'.fibers[f].disposed == (c.fibers[f].disposed || fr == Disposing(f, DsMark))
    && c'.fibers[f].published == (c.fibers[f].published || (fr.Load? && fr.ld.LdAttach? && fr.ld.f == f))
    && (InRuntime(c', f) <==> (InRuntime(c, f) && !Removing(fr, f)) || (fr.Load? && fr.ld.LdAttach? && fr.ld.f == f))
  }

  /** Steps that leave fiber `f`'s record and runtime membership alone. */
  lemma PlaceSame(c: Core, c': Core, fr: Frame, f: nat)
    requires f in c.fibers && f in c'.fibers && c'.fibers[f].fixed == c.fibers[f].fixed
    requires c'.fibers[f].disposed == c.fibers[f].disposed && c'.fibers[f].published == c.fibers[f].published
    requires InRuntime(c', f) <==> InRuntime(c, f)
    requires !fr.Disposing? || fr.f != f || fr.ds.DsRefresh? || (fr.ds.DsMark? && c.fibers[f].disposed)
    requires !(fr.Load? && fr.ld.LdAttach? && fr.ld.f == f)
    ensures PlaceStep(c, c', fr, f)
  {}

  lemma PlaceLoad(c: Core, fr: Frame, ch: Choice, f: nat)
    ensures Fits(c, fr) && fr.Load? && f in c.fibers && f != 0 ==> PlaceStep(c, ExecLoad(c, fr, ch).core, fr, f)
  {
    hide CoreWf, RuntimeWf, FiberWf, PlaceStep, Fits, ExecLoad, LoadedFiber;
    if Fits(c, fr) && fr.Load? && f in c.fibers && f != 0 {
      ForeignLoad(c, fr, ch, f);
      if fr.ld.LdAttach? && fr.ld.f == f {
        PlaceAttach(c, fr, ch);
      } else {
        SameMembership(c, fr, ch, f);
        LoadedForeign(c, fr, f);
        PlaceSame(c, ExecLoad(c, fr, ch).core, fr, f);
      }
    }
  }

  /** Membership of `f` reads its own runtime only. */
  predicate SameMembers(c: Core, c': Core, r: nat, f: nat) {
    r in c.rts && r in c'.rts && (f in c'.rts[r].fibers <==> f in c.rts[r].fibers)
  }

  lemma SameMembership(c: Core, fr: Frame, ch: Choice, f: nat)
    ensures Fits(c, fr) && fr.Load? && f in c.fibers && f != 0 && !(fr.ld.LdAttach? && fr.ld.f == f) ==>
      (InRuntime(ExecLoad(c, fr, ch).core, f) <==> InRuntime(c, f))
  {
    hide CoreWf, FrameWf, ExecLoad;
    if Fits(c, fr) && fr.Load? && f in c.fibers && f != 0 && !(fr.ld.LdAttach? && fr.ld.f == f) {
      CoreFacts(c, f);
      ForeignLoad(c, fr, ch, f);
      MembersLoad(c, fr, ch, c.fibers[f].fixed.runtime, f);
    }
  }

  lemma MembersLoad(c: Core, fr: Frame, ch: Choice, r: nat, f: nat)
    ensures Fits(c, fr) && fr.Load? && r in c.rts && !(fr.ld.LdAttach? && fr.ld.f == f) ==>
      SameMembers(c, ExecLoad(c, fr, ch).core, r, f)
  {
    hide CoreWf, Discard;
    if Fits(c, fr) && fr.Load? && r in c.rts && !(fr.ld.LdAttach? && fr.ld.f == f) {
      RuntimeFacts(c, r);
      match fr.ld
      case LdGate => case LdClaim => case LdNew(_) => case LdEnter(_, _) =>
      case LdAttach(_, _, _) => case LdInstall(_, _, _) => case LdStart(_, _, _) =>
      case LdDiscard(q, _) => MembersDiscard(c, q, r, f);
    }
  }

  lemma MembersDiscard(c: Core, q: nat, r: nat, f: nat)
    ensures q in c.rts && r in c.rts ==> SameMembers(c, Discard(c, q), r, f)
  {}

  lemma PlaceAttach(c: Core, fr: Frame, ch: Choice)
    ensures Fits(c, fr) && fr.Load? && fr.ld.LdAttach? ==> PlaceStep(c, ExecLoad(c, fr, ch).core, fr, fr.ld.f)
  {
    hide CoreWf, PublishNext, PcWf;
  }

  lemma PlaceDisposing(c: Core, g: nat, ds: DisposePc, f: nat)
    ensures CoreWf(c) && g in c.fibers && f in c.fibers && f != 0 ==>
      PlaceStep(c, ExecDisposing(c, g, ds).core, Disposing(g, ds), f)
  {
    hide CoreWf, FiberWf, RemoveFiber;
    if CoreWf(c) && g in c.fibers && f in c.fibers && f != 0 {
      CoreFacts(c, f);
      CoreFacts(c, g);
      match ds
      case DsMark =>
      case DsRemove => if g == f { PlaceRemoved(c, c.fibers[f].fixed.runtime, f); } else { PlaceKept(c, g, f); }
      case DsRefresh =>
    }
  }

  lemma PlaceRemoved(c: Core, r: nat, f: nat)
    ensures f in c.fibers && r in c.rts && c.fibers[f].fixed.runtime == r ==>
      PlaceStep(c, RemoveFiber(c, r, f), Disposing(f, DsRemove), f)
  {}

  lemma PlaceKept(c: Core, g: nat, f: nat)
    ensures CoreWf(c) && f in c.fibers && g in c.fibers && g != f ==>
      PlaceStep(c, ExecDisposing(c, g, DsRemove).core, Disposing(g, DsRemove), f)
  {
    hide CoreWf;
    CoreFacts(c, g);
  }

  lemma PlaceOwn(c: Core, f: nat, pc: Pc, ch: Choice)
    ensures Executes(c, Driver(f, pc), ch) && f != 0 ==>
      PlaceStep(c, Exec(c, Driver(f, pc), ch).core, Driver(f, pc), f)
  {
    hide CoreWf, Exec, DriverFiber, UnloadFiber, PcWf;
    if Executes(c, Driver(f, pc), ch) && f != 0 {
      OwnStep(c, f, pc, ch);
      DriverDisposed(c, c.fibers[f], pc, ch);
      DriverFixed(c, c.fibers[f], pc, ch);
      if pc.Unload? { UnloadKeepsEpoch(c.fibers[f], pc.u); }
    }
  }

  lemma PlaceForeign(c: Core, fr: Frame, ch: Choice, f: nat)
    ensures Executes(c, fr, ch) && f in c.fibers && f != 0 && !fr.Load? && !fr.Disposing? && !Owns(fr, f) ==>
      PlaceStep(c, Exec(c, fr, ch).core, fr, f)
  {
    hide CoreWf, FrameWf, Exec;
    if Executes(c, fr, ch) && f in c.fibers && f != 0 && !fr.Load? && !fr.Disposing? && !Owns(fr, f) {
      ForeignDrives(c, fr, f);
      SameRuntimes(c, fr, ch);
      ForeignStep(c, fr, ch, f);
      UndisposedOther(c, fr, ch, f);
    }
  }

  lemma ForeignDrives(c: Core, fr: Frame, f: nat)
    ensures FrameWf(c, fr) && f != 0 && !Owns(fr, f) ==> !Drives(fr, f)
  {
    hide PcWf, UPcWf;
  }

  lemma PlaceOther(c: Core, fr: Frame, ch: Choice, f: nat)
    ensures Executes(c, fr, ch) && f in c.fibers && f != 0 && !fr.Load? && !fr.Disposing? ==>
      PlaceStep(c, Exec(c, fr, ch).core, fr, f)
  {
    hide CoreWf, FrameWf, Exec, PlaceStep;
    if Owns(fr, f) { PlaceOwn(c, f, fr.pc, ch); } else { PlaceForeign(c, fr, ch, f); }
  }

  lemma UndisposedOther(c: Core, fr: Frame, ch: Choice, f: nat)
    ensures Executes(c, fr, ch) && f in c.fibers && !fr.Load? && !fr.Disposing? && !Drives(fr, f) ==>
      f in Exec(c, fr, ch).core.fibers && Exec(c, fr, ch).core.fibers[f].disposed == c.fibers[f].disposed
  {
    hide CoreWf, PcWf, ExecDriver, ExecUnload, ExecProvide, ExecDisposer, ExecEffect, ExecLoad;
    if Executes(c, fr, ch) && f in c.fibers && !fr.Load? && !fr.Disposing? && !Drives(fr, f) {
      match fr
      case Refresh(_) =>
      case Driver(g, pc) => DriverWrites(c, g, pc, ch);
      case RootUnload(g, u) => UnloadWrites(c, g, u, ch);
      case NotifyProvided(_) =>
      case NotifyNames(_, _) =>
      case Notify(_, _) =>
      case Wake(_) =>
      case Provide(_, _, _, _, _, _) => ProvideLight(c, fr, ch);
      case Effect(_, _, _) => EffectLight(c, fr, ch);
      case Disposer(_, _) => DisposerLight(c, fr, ch);
      case Release(_) => DisposerLight(c, fr, ch);
      case Disposing(_, _) =>
      case Restarting(_, _, _) =>
      case Load(_, _, _, _, _, _) =>
    }
  }

  lemma Places(c: Core, fr: Frame, ch: Choice, f: nat)
    ensures Executes(c, fr, ch) && f in c.fibers && f != 0 ==> PlaceStep(c, Exec(c, fr, ch).core, fr, f)
  {
    hide CoreWf, FrameWf, PlaceStep, ExecLoad, ExecDisposing, ExecDriver, ExecUnload, ExecProvide, ExecDisposer;
    hide ExecEffect, ExecNotify;
    if Executes(c, fr, ch) && f in c.fibers && f != 0 {
      if fr.Load? {
        PlaceLoad(c, fr, ch, f);
      } else if fr.Disposing? {
        assert fr.f in c.fibers by { DisposingKnown(c, fr); }
        PlaceDisposing(c, fr.f, fr.ds, f);
      } else {
        PlaceOther(c, fr, ch, f);
      }
    }
  }

  /** What a continuation carries: its frame's fiber, or one just created; and a removal follows the mark. */
  predicate CarriesOn(c: Core, c': Core, fr: Frame, cont: Option<Frame>) {
    cont.Some? ==>
      && (Carried(cont.value).Some? ==>
            || Carried(cont.value) == Carried(fr)
            || (Carried(cont.value).value !in c.fibers && Carried(cont.value).value in c'.fibers
                && !c'.fibers[Carried(cont.value).value].published))
      && (fr.Load? && fr.ld.LdAttach? ==> Carried(cont.value).None?)
      && (cont.value.Disposing? && cont.value.ds == DsRemove ==>
            fr == Disposing(cont.value.f, DsMark) && fr.f in c.fibers && !c.fibers[fr.f].disposed)
  }

  lemma LoadCarries(c: Core, fr: Frame, ch: Choice)
    ensures Fits(c, fr) && fr.Load? ==> CarriesOn(c, ExecLoad(c, fr, ch).core, fr, ExecLoad(c, fr, ch).cont)
  {
    hide CoreWf, FrameWf, PublishNext;
    if Fits(c, fr) && fr.Load? {
      if fr.ld.LdNew? && c.counter + 1 in c.fibers { CoreFacts(c, c.counter + 1); }
      match fr.ld
      case LdGate => case LdClaim => case LdNew(_) => case LdEnter(_, _) =>
      case LdAttach(_, _, _) => case LdInstall(_, _, _) => case LdStart(_, _, _) => case LdDiscard(_, _) =>
    }
  }

  lemma ContCarries(c: Core, fr: Frame, ch: Choice)
    ensures Executes(c, fr, ch) ==> CarriesOn(c, Exec(c, fr, ch).core, fr, Exec(c, fr, ch).cont)
  {
    hide CoreWf, PcWf, ExecDriver, ExecUnload, ExecProvide, ExecDisposer, ExecEffect, ExecLoad, RemoveFiber;
    match fr
    case Refresh(_) =>
    case Driver(f, pc) => ContDriver(c, f, pc, ch);
    case RootUnload(f, u) =>
    case NotifyProvided(_) =>
    case NotifyNames(_, _) =>
    case Notify(_, _) =>
    case Wake(_) =>
    case Provide(_, _, _, _, _, _) => ContProvide(c, fr, ch);
    case Effect(_, _, _) => ContEffect(c, fr, ch);
    case Disposer(_, _) => ContDisposer(c, fr, ch);
    case Release(_) => ContDisposer(c, fr, ch);
    case Disposing(f, ds) =>
    case Restarting(_, _, _) =>
    case Load(_, _, _, _, _, _) => LoadCarries(c, fr, ch);
  }

  lemma FiberPlacedStep(s: Sys, t: nat, ch: Choice, s': Sys, f: nat)
    ensures SysWf(s) && RuntimesOk(s) && Steps(s, t, ch, s') && SysWf(s') && f in s'.core.fibers ==>
      FiberPlaced(s'.core, s'.pool, f)
  {
    hide CoreWf, FrameWf, Exec, RuntimeCounted, Apart, InRuntime;
    if SysWf(s) && RuntimesOk(s) && Steps(s, t, ch, s') && SysWf(s') && f in s'.core.fibers {
      var c, fr, c' := s.core, s.pool[t], s'.core;
      assert FramePlaced(c, fr) && s.next !in s.pool;
      if f != 0 {
        if f !in c.fibers {
          Newborn(c, fr, ch, f);
          Unplaced(c', f);
        } else {
          Places(c, fr, ch, f);
          assert FiberPlaced(c, s.pool, f);
          if fr == Disposing(f, DsMark) { MarkContinues(c, f, ch); DisposingKnown(c, fr); }
          RemovalFollows(s, t, ch, s', f);
        }
      }
    }
  }

  /** A disposed fiber still in its runtime has its removal in flight. */
  lemma RemovalFollows(s: Sys, t: nat, ch: Choice, s': Sys, f: nat)
    requires SysWf(s) && Steps(s, t, ch, s') && f in s.core.fibers && f != 0 && s.next !in s.pool
    requires FiberPlaced(s.core, s.pool, f) && PlaceStep(s.core, s'.core, s.pool[t], f)
    requires FramePlaced(s.core, s.pool[t])
    requires s.pool[t] == Disposing(f, DsMark) && !s.core.fibers[f].disposed ==>
      Exec(s.core, s.pool[t], ch).cont == Some(Disposing(f, DsRemove)) && Exec(s.core, s.pool[t], ch).call == None
    ensures s'.core.fibers[f].disposed && InRuntime(s'.core, f) ==> exists k :: k in s'.pool && Removing(s'.pool[k], f)
  {
    hide CoreWf, FrameWf, Exec, InRuntime;
    if s'.core.fibers[f].disposed && InRuntime(s'.core, f) {
      if s.core.fibers[f].disposed {
        assert !Carried(s.pool[t]).Some? || Carried(s.pool[t]).value != f;
        var k :| k in s.pool && Removing(s.pool[k], f);
        assert k in s'.pool && Removing(s'.pool[k], f);
      } else {
        assert t in s'.pool && Removing(s'.pool[t], f);
      }
    }
  }

  lemma MarkContinues(c: Core, f: nat, ch: Choice)
    ensures Fits(c, Disposing(f, DsMark)) ==>
      (!c.fibers[f].disposed ==> Exec(c, Disposing(f, DsMark), ch).cont == Some(Disposing(f, DsRemove)))
      && Exec(c, Disposing(f, DsMark), ch).call == None
  {}

  lemma Unplaced(c: Core, f: nat)
    ensures CoreWf(c) && f in c.fibers && !c.fibers[f].published ==> !InRuntime(c, f)
  {
    hide CoreWf;
    if InRuntime(c, f) { RuntimeFacts(c, c.fibers[f].fixed.runtime); }
  }

  lemma PlacedFrames(s: Sys)
    ensures RuntimesOk(s) ==>
      (forall u :: u in s.pool ==> FramePlaced(s.core, s.pool[u]))
      && (forall u, v :: u in s.pool && v in s.pool && u != v ==> Apart(s.pool[u], s.pool[v]))
  {
    hide FramePlaced, Apart;
  }

  lemma PlacedFiber(s: Sys, f: nat)
    ensures RuntimesOk(s) && f in s.core.fibers ==> FiberPlaced(s.core, s.pool, f)
  {
    hide FramePlaced, Apart, FiberPlaced;
  }

  lemma FramesPlacedStep(s: Sys, t: nat, ch: Choice, s': Sys, k: nat)
    ensures SysWf(s) && RuntimesOk(s) && Steps(s, t, ch, s') && k in s'.pool ==> FramePlaced(s'.core, s'.pool[k])
  {
    hide CoreWf, FrameWf, Exec, RuntimesOk, InRuntime;
    if SysWf(s) && RuntimesOk(s) && Steps(s, t, ch, s') && k in s'.pool {
      var c, fr, c' := s.core, s.pool[t], s'.core;
      PlacedFrames(s);
      assert FramePlaced(c, fr) && s.next !in s.pool;
      CallKinds(c, fr, ch);
      ContCarries(c, fr, ch);
      if k in s.pool && k != t {
        var w := s.pool[k];
        assert FramePlaced(c, w) && Apart(w, fr) && Apart(fr, w) && FrameWf(c, w);
        if Carried(w).Some? { CarriedNotRoot(c, w); Places(c, fr, ch, Carried(w).value); }
        if w.Disposing? && w.f != 0 { DisposingKnown(c, w); Places(c, fr, ch, w.f); }
      } else if k == t {
        if Carried(fr).Some? { CarriedNotRoot(c, fr); Places(c, fr, ch, Carried(fr).value); }
        if fr.Disposing? && fr.f != 0 { DisposingKnown(c, fr); Places(c, fr, ch, fr.f); PlacedFiber(s, fr.f); }
      }
    }
  }

  lemma CarriedNotRoot(c: Core, fr: Frame)
    ensures FrameWf(c, fr) && Carried(fr).Some? ==> Carried(fr).value in c.fibers && Carried(fr).value != 0
  {}

  lemma ApartStep(s: Sys, t: nat, ch: Choice, s': Sys, k: nat, l: nat)
    ensures SysWf(s) && RuntimesOk(s) && Steps(s, t, ch, s') && k in s'.pool && l in s'.pool && k != l ==>
      Apart(s'.pool[k], s'.pool[l])
  {
    hide CoreWf, FrameWf, Exec, RuntimesOk, InRuntime;
    if SysWf(s) && RuntimesOk(s) && Steps(s, t, ch, s') && k in s'.pool && l in s'.pool && k != l {
      var c, fr := s.core, s.pool[t];
      PlacedFrames(s);
      CallKinds(c, fr, ch);
      ContCarries(c, fr, ch);
      assert s.next !in s.pool;
    }
  }

  lemma RuntimesStep(s: Sys, t: nat, ch: Choice, s': Sys)
    requires SysWf(s) && RuntimesOk(s) && Steps(s, t, ch, s') && SysWf(s')
    ensures RuntimesOk(s')
  {
    hide CoreWf, FrameWf, Exec, RuntimeCounted, FiberPlaced, FramePlaced, Apart;
    forall r | r in s'.core.rts ensures RuntimeCounted(s'.core, s'.pool, r) { CountedStep(s, t, ch, s', r); }
    forall f | f in s'.core.fibers ensures FiberPlaced(s'.core, s'.pool, f) { FiberPlacedStep(s, t, ch, s', f); }
    forall k | k in s'.pool ensures FramePlaced(s'.core, s'.pool[k]) { FramesPlacedStep(s, t, ch, s', k); }
    forall k, l | k in s'.pool && l in s'.pool && k != l ensures Apart(s'.pool[k], s'.pool[l]) {
      ApartStep(s, t, ch, s', k, l);
    }
  }

  lemma RuntimesCall(s: Sys, fr: Frame, s': Sys)
    ensures SysWf(s) && RuntimesOk(s) && Calls(s, fr, s') ==> RuntimesOk(s')
  {
    hide CoreWf, FrameWf;
    if SysWf(s) && RuntimesOk(s) && Calls(s, fr, s') {
      assert s.next !in s.pool;
      forall r | r in s.core.rts ensures RuntimeCounted(s'.core, s'.pool, r) {
        assert Claimants(s'.pool, r) == Claimants(s.pool, r);
        assert RuntimeCounted(s.core, s.pool, r);
      }
      forall f | f in s.core.fibers ensures FiberPlaced(s'.core, s'.pool, f) {
        assert FiberPlaced(s.core, s.pool, f);
        if f != 0 && s.core.fibers[f].disposed && InRuntime(s.core, f) {
          var k :| k in s.pool && Removing(s.pool[k], f);
          assert k in s'.pool && Removing(s'.pool[k], f);
        }
      }
      forall k | k in s'.pool ensures FramePlaced(s'.core, s'.pool[k]) {
        if k in s.pool { assert FramePlaced(s.core, s.pool[k]); }
      }
      assert Carried(fr).None?;
      forall k, l | k in s'.pool && l in s'.pool && k != l ensures Apart(s'.pool[k], s'.pool[l]) {
        if k in s.pool && l in s.pool { assert Apart(s.pool[k], s.pool[l]); }
      }
      assert forall f :: f in s'.core.fibers ==> FiberPlaced(s'.core, s'.pool, f);
      assert forall r :: r in s'.core.rts ==> RuntimeCounted(s'.core, s'.pool, r);
    }
  }
}
