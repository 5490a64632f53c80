/** One generation at a time: what each program counter of a fiber's driver knows about its generation,
    and that disposal is terminal and wins every race. The root fiber has no generation. */
module ReactiveLifecycle {
  import opened Options
  import opened Reactive
  import opened ReactiveWf
  import opened ReactiveDriver
  import opened ReactiveQuiescence

  /** Nothing of a generation is left. */
  predicate Clean(fib: Fiber) {
    !fib.life.live && !fib.life.started && fib.snapshot.None?
  }

  predicate Settable(fib: Fiber) {
    fib.life.state == Pending || fib.life.state == Failed
  }

  predicate DisposedFinal(fib: Fiber) {
    fib.life.state == Disposed ==> fib.disposed && !fib.life.live
  }

  /** Between passes, apart from the epoch: what is running is an active generation. */
  predicate Standing(fib: Fiber) {
    && DisposedFinal(fib)
    && (!fib.life.live ==> Clean(fib))
    && (fib.life.state == Active ==> fib.life.live && fib.life.started && fib.snapshot.Some? && !fib.err)
    && (!fib.disposed ==> (Settable(fib) || fib.life.state == Active) && (fib.life.live <==> fib.life.state == Active))
  }

  /** Between passes: Active only with a satisfied epoch, Pending only without one. */
  predicate AtRest(fib: Fiber) {
    && Standing(fib)
    && (fib.life.state == Active ==> fib.life.epoch.Gen?)
    && (!fib.disposed && fib.life.state == Pending ==> fib.life.epoch == Inactive)
  }

  /** Unwound, with the epoch still to be decided. */
  predicate Unwound(fib: Fiber) {
    Clean(fib) && DisposedFinal(fib) && fib.life.state != Active && (!fib.disposed ==> Settable(fib))
  }

  /** `load` owns the generation and its body did not start. */
  predicate Starting(fib: Fiber, st: State) {
    fib.life.live && !fib.life.started && fib.life.state == st
  }

  predicate UnloadKnows(fib: Fiber, u: UPc, caller: UCaller) {
    && DisposedFinal(fib)
    && (caller == BySync && !fib.disposed ==> fib.life.epoch == Inactive)
    && match u
       case UClaim =>
         (match caller
          case BySync => if fib.disposed then (!fib.life.live ==> Clean(fib) && fib.life.state != Active)
              else Standing(fib)
          case ByReload => Standing(fib)
          case ByFail => fib.life.live && fib.life.state == Loading)
       case UState => !fib.life.live && fib.life.state != Disposed
       case UClear => !fib.life.live && fib.life.state == Unloading
       case UDrain(_) => !fib.life.live && fib.life.state == Unloading && fib.list == {}
       case UReset => !fib.life.live && fib.life.state == Unloading && fib.list == {}
       case UPending => Clean(fib) && fib.life.state == Unloading
       case UFinal => Clean(fib) && fib.disposed && fib.life.state != Active
  }

  predicate PcKnows(fib: Fiber, pc: Pc) {
    match pc
    case PassStart => AtRest(fib)
    case SyncTop => AtRest(fib)
    case Resolve(_, _, again) => AtRest(fib) && (again ==> Clean(fib))
    case ResolveState(_, _, _, _, again) => AtRest(fib) && (again ==> Clean(fib))
    case DecideMiss(_) => AtRest(fib)
    case DecideHit(_) => AtRest(fib)
    case ApplyUnload(_) => AtRest(fib)
    case ApplyLoad(_) => AtRest(fib) && Clean(fib)
    case LoadClaim(_) => AtRest(fib) && Clean(fib)
    case LoadState(_) => fib.life.live && !fib.life.started && Settable(fib) && fib.snapshot.None?
    case LoadCheck(_, _) => Starting(fib, Loading) && fib.snapshot.None?
    case GiveBack => Starting(fib, Loading) && fib.snapshot.None?
    case GiveBackState => Clean(fib) && fib.life.state == Loading && fib.life.epoch == Inactive
    case GiveBackRefresh =>
      Clean(fib) && fib.life.epoch == Inactive
          && (fib.life.state == Pending || (fib.disposed && fib.life.state == Loading))
    case LoadCommit(_) => Starting(fib, Loading) && fib.snapshot.None?
    case Config => Starting(fib, Loading) && fib.snapshot.Some? && fib.life.epoch.Gen?
    case Body => fib.life.live && fib.life.started && fib.life.state == Loading && fib.snapshot.Some?
        && fib.life.epoch.Gen?
    case BodyDone => fib.life.live && fib.life.started && fib.life.state == Loading && fib.snapshot.Some?
        && fib.life.epoch.Gen?
    case BodyActive => fib.life.live && fib.life.started && fib.life.state == Loading && fib.snapshot.Some?
        && fib.life.epoch.Gen? && !fib.err
    case Unload(u, caller) => UnloadKnows(fib, u, caller)
    case ReloadMid => Unwound(fib)
    case FailMid => Unwound(fib)
    case FailState => Unwound(fib)
    case PassEnd => AtRest(fib)
  }

  ghost predicate LifeOk(s: Sys, f: nat) {
    f in s.core.fibers && f != 0 ==>
      && Accounted(s.core.fibers[f])
      && (!s.core.fibers[f].published ==> s.core.fibers[f].snapshot.None?)
      && (!s.core.fibers[f].drive.busy ==> AtRest(s.core.fibers[f]))
      && (forall t :: t in s.pool && Owns(s.pool[t], f) ==> PcKnows(s.core.fibers[f], s.pool[t].pc))
  }

  // ----- the driver's own steps -----

  lemma UnloadKnowsNext(fib: Fiber, u: UPc, caller: UCaller)
    ensures UnloadKnows(fib, u, caller) && Accounted(fib) && !(u.UDrain? && u.todo != {}) ==>
      && (PcKnows(UnloadFiber(fib, u),
                       if UnloadNext(fib, u).Some? then Unload(UnloadNext(fib, u).value, caller)
                           else AfterUnload(caller)))
      && Accounted(UnloadFiber(fib, u))
  {
    match u
    case UClaim => case UState => case UClear => case UDrain(_) => case UReset => case UPending => case UFinal =>
  }

  /** The sections that only decide. */
  predicate Decides(pc: Pc) {
    pc.PassStart? || pc.SyncTop? || pc.Resolve? || pc.ResolveState? || pc.DecideMiss? || pc.DecideHit?
        || pc.ApplyUnload?
    || pc.ApplyLoad? || pc.PassEnd?
  }

  predicate NextKnown(c: Core, fib: Fiber, pc: Pc, ch: Choice) {
    var fib' := DriverFiber(c, fib, pc, ch);
    && Accounted(fib')
    && (if DriverNext(c, fib, pc, ch).Some? then PcKnows(fib', DriverNext(c, fib, pc, ch).value) else AtRest(fib'))
  }

  /** The sections around a body and after an unload. */
  predicate Concludes(pc: Pc) {
    pc.Config? || pc.Body? || pc.BodyDone? || pc.BodyActive? || pc.ReloadMid? || pc.FailMid? || pc.FailState?
  }

  lemma LookupKnows(c: Core, fib: Fiber, pc: Pc, ch: Choice)
    requires PcWf(c, fib, pc) && PcKnows(fib, pc) && Accounted(fib) && !fib.fixed.root
    requires pc.PassStart? || pc.SyncTop? || pc.Resolve? || pc.ResolveState? || pc.PassEnd?
    ensures NextKnown(c, fib, pc, ch)
  {
    hide PcWf, GotWf, KeysOf, Registered, Live, LabelOf;
    match pc
    case PassStart => case SyncTop => case Resolve(_, _, _) => case ResolveState(_, _, _, _, _) => case PassEnd =>
  }

  lemma DecidesKnows(c: Core, fib: Fiber, pc: Pc, ch: Choice)
    requires PcWf(c, fib, pc) && PcKnows(fib, pc) && Accounted(fib)
    requires (pc.DecideMiss? || pc.DecideHit? || pc.ApplyUnload? || pc.ApplyLoad?)
    ensures NextKnown(c, fib, pc, ch)
  {
    hide PcWf, GotWf, KeysOf, Registered, Live, LabelOf;
    match pc
    case DecideMiss(_) => case DecideHit(_) => case ApplyUnload(_) => case ApplyLoad(_) =>
  }

  lemma LoadsKnows(c: Core, fib: Fiber, pc: Pc, ch: Choice)
    requires PcWf(c, fib, pc) && PcKnows(fib, pc) && Accounted(fib) && !Decides(pc) && !Concludes(pc)
    requires !pc.Unload?
    ensures NextKnown(c, fib, pc, ch)
  {
    hide PcWf, GotWf, KeysOf, Registered, Live, LabelOf;
    match pc
    case LoadClaim(_) => case LoadState(_) => case LoadCheck(_, _) => case GiveBack => case GiveBackState =>
    case GiveBackRefresh =>
    case LoadCommit(_) =>
  }

  lemma RunsKnow(c: Core, fib: Fiber, pc: Pc, ch: Choice)
    requires PcWf(c, fib, pc) && PcKnows(fib, pc) && Accounted(fib)
    requires (pc.Config? || pc.Body? || pc.BodyDone? || pc.BodyActive?)
    ensures NextKnown(c, fib, pc, ch)
  {
    hide PcWf, GotWf, KeysOf, Registered, Live, LabelOf;
    match pc
    case Config => case Body => case BodyDone => case BodyActive =>
  }

  lemma UnwindsKnow(c: Core, fib: Fiber, pc: Pc, ch: Choice)
    requires PcWf(c, fib, pc) && PcKnows(fib, pc) && Accounted(fib)
    requires (pc.ReloadMid? || pc.FailMid? || pc.FailState?)
    ensures NextKnown(c, fib, pc, ch)
  {
    hide PcWf, GotWf, KeysOf, Registered, Live, LabelOf;
    match pc
    case ReloadMid => case FailMid => case FailState =>
  }

  lemma PcKnowsNext(c: Core, fib: Fiber, pc: Pc, ch: Choice)
    ensures PcWf(c, fib, pc) && PcKnows(fib, pc) && Accounted(fib) && !pc.Unload? && !fib.fixed.root ==>
      NextKnown(c, fib, pc, ch)
  {
    hide PcKnows, Accounted, NextKnown, PcWf;
    if PcWf(c, fib, pc) && PcKnows(fib, pc) && Accounted(fib) && !pc.Unload? && !fib.fixed.root {
      if pc.PassStart? || pc.SyncTop? || pc.Resolve? || pc.ResolveState? || pc.PassEnd? { LookupKnows(c, fib, pc, ch); }
      else if Decides(pc) { DecidesKnows(c, fib, pc, ch); }
      else if pc.ReloadMid? || pc.FailMid? || pc.FailState? { UnwindsKnow(c, fib, pc, ch); }
      else if Concludes(pc) { RunsKnow(c, fib, pc, ch); }
      else { LoadsKnows(c, fib, pc, ch); }
    }
  }

  // ----- other activations -----

  lemma ForeignKnows(a: Fiber, b: Fiber, pc: Pc)
    ensures Foreign(a, b) && PcKnows(a, pc) ==> PcKnows(b, pc)
  {
    match pc
    case PassStart => case SyncTop => case Resolve(_, _, _) => case ResolveState(_, _, _, _, _) =>
    case DecideMiss(_) => case DecideHit(_) => case ApplyUnload(_) => case ApplyLoad(_) => case LoadClaim(_) =>
    case LoadState(_) => case LoadCheck(_, _) => case GiveBack => case GiveBackState => case GiveBackRefresh =>
    case LoadCommit(_) => case Config => case Body => case BodyDone => case BodyActive =>
    case Unload(u, _) =>
      match u {
        case UClaim => case UState => case UClear => case UDrain(_) => case UReset => case UPending => case UFinal =>
      }
    case ReloadMid => case FailMid => case FailState => case PassEnd =>
  }

  lemma ForeignRest(a: Fiber, b: Fiber)
    ensures Foreign(a, b) && AtRest(a) ==> AtRest(b)
  {}

  // ----- the invariant -----

  lemma LifeOwn(s: Sys, t: nat, ch: Choice, s': Sys, f: nat)
    requires SysWf(s) && SingleOwner(s) && SingleOwner(s') && Steps(s, t, ch, s') && f in s.core.fibers
    requires f != 0
    requires Owns(s.pool[t], f) && LifeOk(s, f)
    ensures LifeOk(s', f)
  {
    hide CoreWf, Exec, PcKnows, AtRest, Accounted, PcWf, DriverNext, DriverFiber, UnloadFiber, UnloadNext;
    hide UnloadKnows;
    var c, pc := s.core, s.pool[t].pc;
    assert FrameWf(c, s.pool[t]);
    var fib := c.fibers[f];
    CoreFacts(c, f);
    OwnStep(c, f, pc, ch);
    OwnNext(c, f, pc, ch);
    OnlyOwner(s, t, ch, s', f);
    DriverDisposed(c, fib, pc, ch);
    if pc.Unload? {
      if pc.u.UDrain? && pc.u.todo != {} {
        DrainKnows(fib, pc, s'.core.fibers[f], Exec(c, s.pool[t], ch).cont.value.pc);
      }
      else { UnloadOpen(fib, pc); UnloadKnowsNext(fib, pc.u, pc.caller); }
    } else {
      PcKnowsNext(c, fib, pc, ch);
    }
  }

  lemma UnloadOpen(fib: Fiber, pc: Pc)
    ensures PcKnows(fib, pc) && pc.Unload? ==> UnloadKnows(fib, pc.u, pc.caller)
  {}

  lemma DrainKnows(fib: Fiber, pc: Pc, fib': Fiber, next: Pc)
    ensures
      && PcKnows(fib, pc) && pc.Unload? && pc.u.UDrain? && fib' == fib && next.Unload? && next.caller == pc.caller
      && next.u.UDrain?
      ==> PcKnows(fib', next)
  {}

  lemma LifeOther(s: Sys, t: nat, ch: Choice, s': Sys, f: nat)
    requires SysWf(s) && SingleOwner(s) && SingleOwner(s') && Steps(s, t, ch, s') && f in s.core.fibers
    requires f != 0
    requires !Owns(s.pool[t], f) && LifeOk(s, f)
    ensures LifeOk(s', f)
  {
    hide CoreWf, Exec, PcKnows, AtRest, PcWf;
    var c, fr := s.core, s.pool[t];
    assert FrameWf(c, fr);
    ForeignStep(c, fr, ch, f);
    CallKinds(c, fr, ch);
    ContKinds(c, fr, ch);
    var was, fib := c.fibers[f], s'.core.fibers[f];
    if AtRest(was) { ForeignRest(was, fib); RestPass(fib); }
    forall k | k in s'.pool && Owns(s'.pool[k], f) ensures PcKnows(fib, s'.pool[k].pc) {
      if k in s.pool && s.pool[k] == s'.pool[k] { ForeignKnows(was, fib, s.pool[k].pc); }
      else {
        assert fr == Refresh(f) && !was.drive.busy;
      }
    }
    if !fib.drive.busy { assert !was.drive.busy; }
  }

  lemma RestPass(fib: Fiber)
    ensures AtRest(fib) ==> PcKnows(fib, PassStart)
  {}

  lemma LifeNew(s: Sys, t: nat, ch: Choice, s': Sys, f: nat)
    requires SysWf(s) && SingleOwner(s) && Steps(s, t, ch, s') && SingleOwner(s') && f !in s.core.fibers
    requires f in s'.core.fibers
    ensures LifeOk(s', f)
  {
    hide CoreWf, FrameWf, Exec, PcKnows;
    Newborn(s.core, s.pool[t], ch, f);
    NoOwners(s', f);
  }

  lemma LifeStep(s: Sys, t: nat, ch: Choice, s': Sys, f: nat)
    requires SysWf(s) && SingleOwner(s) && SingleOwner(s') && Steps(s, t, ch, s') && LifeOk(s, f)
    requires f in s'.core.fibers
    ensures LifeOk(s', f)
  {
    hide CoreWf, FrameWf, Exec, LifeOk;
    if f == 0 { RootLife(s'); }
    else if f !in s.core.fibers { LifeNew(s, t, ch, s', f); }
    else if Owns(s.pool[t], f) { LifeOwn(s, t, ch, s', f); }
    else { LifeOther(s, t, ch, s', f); }
  }

  lemma RootLife(s: Sys)
    ensures LifeOk(s, 0)
  {}

  lemma LifeCall(s: Sys, fr: Frame, s': Sys, f: nat)
    ensures SysWf(s) && Calls(s, fr, s') && LifeOk(s, f) ==> LifeOk(s', f)
  {
    hide CoreWf, FrameWf, PcKnows, AtRest;
    if SysWf(s) && Calls(s, fr, s') && LifeOk(s, f) {
      if f in s.core.fibers {
        forall k | k in s'.pool && Owns(s'.pool[k], f) ensures k in s.pool && s.pool[k] == s'.pool[k] {}
      }
    }
  }

  // ----- what the table says about single steps -----

  /** A plugin body starts only on a fiber with no started generation, in state Loading, with the
      committed snapshot, and with nothing in its disposable list but entries no generation owns. */
  lemma BodyStarts(s: Sys, t: nat, ch: Choice, s': Sys, f: nat)
    requires SysWf(s) && SingleOwner(s) && LifeOk(s, f) && f in s.core.fibers && f != 0 && Steps(s, t, ch, s')
    requires s.pool[t] == Driver(f, Config) && t in s'.pool && s'.pool[t] == Driver(f, Body)
    ensures var was := s.core.fibers[f];
      was.life.live && !was.life.started && was.life.state == Loading && was.snapshot.Some? && was.life.epoch.Gen?
          && was.list <= was.strays
    ensures s'.core.fibers[f].life.started
  {
    hide SysWf;
    assert Owns(s.pool[t], f) && PcKnows(s.core.fibers[f], Config);
  }

  /** A generation counts as unwound only in the last section of a complete unwind, after `unload`
      cleared the list and waited for every entry; nothing was listed meanwhile. */
  lemma UnwindEnds(s: Sys, t: nat, ch: Choice, s': Sys, f: nat)
    requires SysWf(s) && SingleOwner(s) && LifeOk(s, f) && f in s.core.fibers && f != 0 && Steps(s, t, ch, s')
    requires s.core.fibers[f].life.started && f in s'.core.fibers && !s'.core.fibers[f].life.started
    ensures Owns(s.pool[t], f) && s.pool[t].pc.Unload? && s.pool[t].pc.u == UReset
    ensures var was := s.core.fibers[f]; was.life.state == Unloading && !was.life.live && was.list == {}
  {
    hide CoreWf, Exec, PcWf, DriverFiber;
    var c, fr := s.core, s.pool[t];
    assert FrameWf(c, fr);
    if Owns(fr, f) {
      OwnStep(c, f, fr.pc, ch);
      StartedKept(c, c.fibers[f], fr.pc, ch);
    } else {
      ForeignStep(c, fr, ch, f);
    }
  }

  lemma StartedKept(c: Core, fib: Fiber, pc: Pc, ch: Choice)
    ensures PcWf(c, fib, pc) && fib.life.started ==>
      (!pc.Unload? ==> DriverFiber(c, fib, pc, ch).life.started)
      && (pc.Unload? && !pc.u.UReset? ==> UnloadFiber(fib, pc.u).life.started)
  {
    hide PcWf;
    match pc
    case PassStart => case SyncTop => case Resolve(_, _, _) => case ResolveState(_, _, _, _, _) =>
    case DecideMiss(_) => case DecideHit(_) => case ApplyUnload(_) => case ApplyLoad(_) => case LoadClaim(_) =>
    case LoadState(_) => case LoadCheck(_, _) => case GiveBack => case GiveBackState => case GiveBackRefresh =>
    case LoadCommit(_) => case Config => case Body => case BodyDone => case BodyActive =>
    case Unload(u, _) =>
      match u {
        case UClaim => case UState => case UClear => case UDrain(_) => case UReset => case UPending => case UFinal =>
      }
    case ReloadMid => case FailMid => case FailState => case PassEnd =>
  }

  /** Once disposed of, a fiber is never made live again, and a final state is never left. */
  lemma NeverLiveAgain(s: Sys, t: nat, ch: Choice, s': Sys, f: nat)
    requires SysWf(s) && LifeOk(s, f) && Steps(s, t, ch, s') && f in s.core.fibers && f != 0
    requires s.core.fibers[f].disposed
    ensures f in s'.core.fibers && s'.core.fibers[f].disposed
    ensures !s.core.fibers[f].life.live ==> !s'.core.fibers[f].life.live
    ensures s.core.fibers[f].life.state == Disposed ==> s'.core.fibers[f].life.state == Disposed
  {
    hide CoreWf, Exec, PcWf, PcKnows, DriverLife, AtRest;
    var c, fr := s.core, s.pool[t];
    assert FrameWf(c, fr);
    if Owns(fr, f) {
      OwnStep(c, f, fr.pc, ch);
      LiveKept(c, c.fibers[f], fr.pc, ch);
    } else {
      ForeignStep(c, fr, ch, f);
    }
  }

  lemma LiveKept(c: Core, fib: Fiber, pc: Pc, ch: Choice)
    ensures PcWf(c, fib, pc) && fib.disposed && PcKnows(fib, pc) ==>
      var fib' := if pc.Unload? then UnloadFiber(fib, pc.u) else DriverFiber(c, fib, pc, ch);
      (!fib.life.live ==> !fib'.life.live) && (fib.life.state == Disposed ==> fib'.life.state == Disposed)
  {
    hide PcWf;
    match pc
    case PassStart => case SyncTop => case Resolve(_, _, _) => case ResolveState(_, _, _, _, _) =>
    case DecideMiss(_) => case DecideHit(_) => case ApplyUnload(_) => case ApplyLoad(_) => case LoadClaim(_) =>
    case LoadState(_) => case LoadCheck(_, _) => case GiveBack => case GiveBackState => case GiveBackRefresh =>
    case LoadCommit(_) => case Config => case Body => case BodyDone => case BodyActive =>
    case Unload(u, _) =>
      match u {
        case UClaim => case UState => case UClear => case UDrain(_) => case UReset => case UPending => case UFinal =>
      }
    case ReloadMid => case FailMid => case FailState => case PassEnd =>
  }
}
