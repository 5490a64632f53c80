/** The transition driver: one owner per fiber, and what other activations may do to a fiber meanwhile. */
module ReactiveDriver {
  import opened Options
  import opened Reactive
  import opened ReactiveWf

  predicate Owns(fr: Frame, f: nat) {
    fr.Driver? && fr.f == f
  }

  /** The frames that run `unload` or `load` on fiber `f`. */
  predicate Drives(fr: Frame, f: nat) {
    Owns(fr, f) || (fr.RootUnload? && fr.f == f)
  }

  /** What an activation that does not drive a fiber may do to its driver's bookkeeping. */
  predicate ForeignDrive(a: Drive, b: Drive) {
    && (a.dirty ==> b.dirty) && (a.busy ==> b.busy) && (a.forceReload ==> b.forceReload)
    && a.requests <= b.requests && a.served == b.served
  }

  /** What a fiber lists was made by its standing generation or while none stood. */
  predicate Accounted(fib: Fiber) {
    fib.list <= fib.own + fib.strays && (!fib.life.started ==> fib.own == {})
  }

  /** What the standing generation made is younger than every binding it loaded against. */
  predicate Younger(fib: Fiber) {
    forall e :: e in fib.own ==> fib.life.base < e
  }

  /** A registration is refused while the fiber unloads and once it is disposed. */
  predicate ForeignList(a: Fiber, b: Fiber) {
    && (Accounted(a) ==> Accounted(b))
    && (Younger(a) ==> Younger(b)) && a.own <= b.own && a.strays <= b.strays
    && ((a.life.state == Unloading || a.disposed) && a.list == {} ==> b.list == {})
  }

  /** What it may do to the fiber: its generation is the driver's alone. */
  predicate Foreign(a: Fiber, b: Fiber) {
    && a.fixed == b.fixed && a.life == b.life && ForeignDrive(a.drive, b.drive) && ForeignList(a, b)
    && a.snapshot.Some? == b.snapshot.Some?
    && (a.disposed ==> b.disposed) && (a.published ==> b.published) && (b.err ==> a.err)
    && (a.err && !b.err ==> b.drive.forceReload)
  }

  /** A core whose fiber `g` is at most changed the foreign way. */
  predicate ForeignIn(c: Core, c': Core, g: nat) {
    && g in c.fibers && g in c'.fibers && Foreign(c.fibers[g], c'.fibers[g])
    && c'.fibers[g].drive.busy == c.fibers[g].drive.busy && c'.fibers[g].published == c.fibers[g].published
  }

  lemma ForeignRefresh(c: Core, f: nat, g: nat)
    ensures f in c.fibers && g in c.fibers ==>
      && (var c' := ExecRefresh(c, f).core;
         g in c'.fibers && Foreign(c.fibers[g], c'.fibers[g]) && c'.fibers[g].published == c.fibers[g].published)
      && (f != g ==> ForeignIn(c, ExecRefresh(c, f).core, g))
  {
    hide Foreign;
    if f in c.fibers && g in c.fibers {
      ForeignRefl(c.fibers[g]);
      RefreshWrites(c.fibers[f]);
      hide Foreign;
    }
  }

  lemma RefreshWrites(fib: Fiber)
    ensures Foreign(fib, fib.(drive := if fib.drive.busy then Marked(fib.drive) else Taken(fib.drive)))
  {}

  lemma ForeignUnload(c: Core, f: nat, u: UPc, ch: Choice, g: nat)
    ensures f in c.fibers && UPcWf(c, u) && g in c.fibers && f != g ==>
      ExecUnload(c, f, u, ch).UMoved? ==> ForeignIn(c, ExecUnload(c, f, u, ch).core, g)
  {
    hide UnloadFiber, UnloadNext;
  }

  lemma ForeignDriver(c: Core, f: nat, pc: Pc, ch: Choice, g: nat)
    ensures f in c.fibers && PcWf(c, c.fibers[f], pc) && g in c.fibers && f != g ==>
      ExecDriver(c, f, pc, ch).Ran? ==> ForeignIn(c, ExecDriver(c, f, pc, ch).core, g)
  {
    hide UnloadFiber, UnloadNext, DriverFiber, DriverNext, ExecUnload, Chooses;
    if pc.Unload? { ForeignUnload(c, f, pc.u, ch, g); }
  }

  lemma ForeignWith(c: Core, c': Core, f: nat, fib: Fiber, g: nat)
    requires f in c.fibers && g in c.fibers && c'.fibers == c.fibers[f := fib]
    requires Foreign(c.fibers[f], fib) && fib.drive.busy == c.fibers[f].drive.busy
    requires fib.published == c.fibers[f].published
    ensures ForeignIn(c, c', g)
  {
    hide Foreign;
    ForeignRefl(c.fibers[g]);
  }

  lemma ForeignSame(c: Core, c': Core, g: nat)
    ensures g in c.fibers && c'.fibers == c.fibers ==> ForeignIn(c, c', g)
  {
    hide Foreign;
    if g in c.fibers && c'.fibers == c.fibers {
      ForeignRefl(c.fibers[g]);
    }
  }

  /** Lists and snapshots are what other activations write. */
  lemma ForeignHeld(fib: Fiber, list: set<nat>, held: map<Name, nat>)
    ensures list <= fib.list ==> Foreign(fib, fib.(list := list)) && fib.(list := list).drive.busy == fib.drive.busy
    ensures fib.snapshot.Some? ==>
      Foreign(fib, fib.(snapshot := Some(held))) && fib.(snapshot := Some(held)).drive.busy == fib.drive.busy
  {}

  lemma ForeignEntered(fib: Fiber, e: nat, owner: Option<nat>)
    ensures fib.life.state != Unloading && !fib.disposed ==>
      var fib' := Entered(fib, e, owner);
      Foreign(fib, fib') && fib'.drive.busy == fib.drive.busy
      && fib'.published == fib.published
  {}

  lemma ForeignPublish(c: Core, c': Core, f: nat, e: nat, owner: Option<nat>, g: nat)
    requires f in c.fibers && g in c.fibers && Accepts(c, f, owner)
    requires c'.fibers == c.fibers[f := Entered(c.fibers[f], e, owner)]
    ensures ForeignIn(c, c', g)
  {
    hide Foreign, ForeignIn, Entered;
    ForeignEntered(c.fibers[f], e, owner);
    ForeignWith(c, c', f, Entered(c.fibers[f], e, owner), g);
  }

  lemma ForeignFinished(c: Core, e: nat, f: nat, g: nat)
    ensures f in c.fibers && g in c.fibers ==> ForeignIn(c, Finished(c, e, f), g)
  {
    hide Foreign, ForeignIn;
    if f in c.fibers && g in c.fibers {
      ForeignHeld(c.fibers[f], c.fibers[f].list - {e}, map[]);
      ForeignWith(c, Finished(c, e, f), f, c.fibers[f].(list := c.fibers[f].list - {e}), g);
    }
  }

  lemma ForeignProvide(c: Core, fr: Frame, ch: Choice, g: nat)
    ensures Fits(c, fr) && fr.Provide? && g in c.fibers ==> ForeignIn(c, ExecProvide(c, fr, ch).core, g)
  {
    hide CoreWf, Foreign, ForeignIn, Finished, Accepts, Entered, PcWf;
    if Fits(c, fr) && fr.Provide? && g in c.fibers {
      var c', fib := ExecProvide(c, fr, ch).core, c.fibers[fr.f];
      match fr.pv
      case PvAlloc => ForeignSame(c, c', g);
      case PvGate(e) => ForeignSame(c, c', g);
      case PvEnter(e) =>
        if Accepts(c, fr.f, fr.owner) {
          ForeignPublish(c, c', fr.f, e, fr.owner, g);
        } else {
          ForeignSame(c, c', g);
        }
      case PvRegister(e) => ForeignSame(c, c', g);
      case PvAbort(e) => ForeignFinished(c, e, fr.f, g);
      case PvSnapshot(e) =>
        if fib.snapshot.Some? {
          ForeignHeld(fib, {}, fib.snapshot.value[fr.name := e]);
          ForeignWith(c, c', fr.f, fib.(snapshot := Some(fib.snapshot.value[fr.name := e])), g);
        } else { ForeignSame(c, c', g); }
      case PvNotify(e) => ForeignSame(c, c', g);
      case PvInstall(e) => ForeignSame(c, c', g);
    }
  }

  lemma ForeignUnwind(c: Core, fr: Frame, e: nat, f: nat, ch: Choice, g: nat)
    ensures f in c.fibers && g in c.fibers && ExecUnwind(c, fr, e, f, ch).Ran? ==>
      ForeignIn(c, ExecUnwind(c, fr, e, f, ch).core, g)
  {
    hide Foreign, ForeignIn, Finished, Unhandled;
    if f in c.fibers && g in c.fibers && ExecUnwind(c, fr, e, f, ch).Ran? {
      if Unhandled(c, e) == {} {
        ForeignFinished(c, e, f, g);
      } else {
        ForeignSame(c, ExecUnwind(c, fr, e, f, ch).core, g);
      }
    }
  }

  lemma ForeignEffect(c: Core, fr: Frame, ch: Choice, g: nat)
    ensures Fits(c, fr) && fr.Effect? && g in c.fibers && ExecEffect(c, fr, ch).Ran? ==>
      ForeignIn(c, ExecEffect(c, fr, ch).core, g)
  {
    hide CoreWf, Foreign, ForeignIn, Accepts, Entered, ExecUnwind, PcWf;
    if Fits(c, fr) && fr.Effect? && g in c.fibers && ExecEffect(c, fr, ch).Ran? {
      var c' := ExecEffect(c, fr, ch).core;
      match fr.fx
      case FxEnter =>
        if Accepts(c, fr.f, fr.owner) {
          ForeignPublish(c, c', fr.f, c.bindingSeq + 1, fr.owner, g);
        } else {
          ForeignSame(c, c', g);
        }
      case FxBody(_) => ForeignSame(c, c', g);
      case FxAbandon(e) => ForeignUnwind(c, fr, e, fr.f, ch, g);
    }
  }

  lemma ForeignDisposer(c: Core, fr: Frame, ch: Choice, g: nat)
    ensures (Fits(c, fr) && (fr.Disposer? || fr.Release?) && g in c.fibers) && ExecDisposer(c, fr, ch).Ran? ==>
      ForeignIn(c, ExecDisposer(c, fr, ch).core, g)
  {
    hide CoreWf, Foreign, ForeignIn, ExecUnwind, PcWf;
    if (Fits(c, fr) && (fr.Disposer? || fr.Release?) && g in c.fibers) && ExecDisposer(c, fr, ch).Ran? {
      BindingFacts(c, fr.e);
      var c', b := ExecDisposer(c, fr, ch).core, c.store[fr.e];
      var fib := c.fibers[b.provider];
      if fr.Release? {
        ForeignSame(c, c', g);
      } else {
        match fr.un
        case UnRegister => ForeignSame(c, c', g);
        case UnSnapshot =>
          if fib.snapshot.Some? {
            ForeignHeld(fib, {}, fib.snapshot.value - {b.name});
            ForeignWith(c, c', b.provider, fib.(snapshot := Some(fib.snapshot.value - {b.name})), g);
          } else { ForeignSame(c, c', g); }
        case UnChild => ForeignSame(c, c', g);
        case UnDone => ForeignUnwind(c, fr, fr.e, b.provider, ch, g);
      }
    }
  }

  lemma ForeignDisposing(c: Core, f: nat, ds: DisposePc, g: nat)
    ensures CoreWf(c) && f in c.fibers && g in c.fibers ==> ForeignIn(c, ExecDisposing(c, f, ds).core, g)
  {
    hide CoreWf, RemoveFiber, FiberWf, Foreign, ForeignIn;
    if CoreWf(c) && f in c.fibers && g in c.fibers {
      CoreFacts(c, f);
      var c' := ExecDisposing(c, f, ds).core;
      match ds
      case DsMark =>
        var fib := c.fibers[f];
        ForeignMarked(fib);
        if fib.disposed {
          ForeignSame(c, c', g);
        } else {
          ForeignWith(c, c', f, fib.(disposed := true, drive := Marked(fib.drive)), g);
        }
      case DsRemove =>
        if !c.fibers[f].fixed.root { RemoveKeeps(c, c.fibers[f].fixed.runtime, f); }
        ForeignSame(c, c', g);
      case DsRefresh => ForeignSame(c, c', g);
    }
  }

  lemma ForeignMarked(fib: Fiber)
    ensures var fib' := fib.(disposed := true, drive := Marked(fib.drive));
      Foreign(fib, fib')
      && fib'.drive.busy == fib.drive.busy
  {}

  /** Notifications only start other activations. */
  lemma NotifyKeeps(c: Core, fr: Frame, ch: Choice)
    ensures ExecNotify(c, fr, ch).core == c
  {
    hide FrameWf, Attached, Wants, ProvidedNames, LabelOf;
  }

  lemma RemoveKeeps(c: Core, r: nat, f: nat)
    ensures r in c.rts ==>
      var c' := RemoveFiber(c, r, f);
      c'.fibers == c.fibers && c'.store == c.store && c'.bindings == c.bindings && c'.entries == c.entries
  {}

  lemma ForeignRestarting(c: Core, f: nat, update: bool, rs: RestartPc, g: nat)
    ensures f in c.fibers && g in c.fibers ==> ForeignIn(c, ExecRestarting(c, f, update, rs).core, g)
  {
    match rs
    case RsGate => case RsMark =>
  }

  /** Attaching publishes the fiber, and its entry joins the parent's effects; no other section of `load`
      writes an existing fiber. */
  function LoadedFiber(c: Core, fr: Frame, g: nat): Fiber
    requires fr.Load? && g in c.fibers
  {
    if fr.ld.LdAttach? && fr.ld.f == g then c.fibers[g].(published := true)
    else if fr.ld.LdEnter? && fr.parent == g && Accepts(c, g, fr.owner)
        then Entered(c.fibers[g], c.bindingSeq + 1, fr.owner)
    else c.fibers[g]
  }

  lemma ForeignLoad(c: Core, fr: Frame, ch: Choice, g: nat)
    ensures Fits(c, fr) && fr.Load? && g in c.fibers ==>
      var c' := ExecLoad(c, fr, ch).core; g in c'.fibers && c'.fibers[g] == LoadedFiber(c, fr, g)
  {
    hide CoreWf, FrameWf, ExecLoad, Accepts, Entered;
    CoreFacts(c, g);
    LoadFibers(c, fr, ch);
  }

  lemma LoadedForeign(c: Core, fr: Frame, g: nat)
    ensures fr.Load? && g in c.fibers ==>
      var fib := LoadedFiber(c, fr, g);
      && Foreign(c.fibers[g], fib) && fib.drive == c.fibers[g].drive && fib.disposed == c.fibers[g].disposed
      && fib.snapshot == c.fibers[g].snapshot
          && (!(fr.ld.LdAttach? && fr.ld.f == g) ==> fib.published == c.fibers[g].published)
  {
    hide Foreign;
    if fr.Load? && g in c.fibers {
      ForeignRefl(c.fibers[g]);
      ForeignPublished(c.fibers[g]);
      if fr.ld.LdEnter? && fr.parent == g && Accepts(c, g, fr.owner) {
        ForeignEntered(c.fibers[g], c.bindingSeq + 1, fr.owner);
      }
      hide Foreign;
    }
  }

  /** What a section of `load` writes to the fibers. */
  lemma LoadFibers(c: Core, fr: Frame, ch: Choice)
    ensures Fits(c, fr) && fr.Load? ==>
      var c' := ExecLoad(c, fr, ch).core;
      c'.fibers == match fr.ld
                   case LdNew(r) => c.fibers[c.counter + 1 := NewFiber(fr.parent, r, fr.inject, fr.scope)]
                   case LdEnter(_, _) =>
                     if Accepts(c, fr.parent, fr.owner)
                     then c.fibers[fr.parent := Entered(c.fibers[fr.parent], c.bindingSeq + 1, fr.owner)] else c.fibers
                   case LdAttach(_, f, _) => c.fibers[f := c.fibers[f].(published := true)]
                   case _ => c.fibers
  {
    hide CoreWf, Accepts, Entered, PcWf;
    if Fits(c, fr) && fr.Load? {
      match fr.ld
      case LdGate => case LdClaim => case LdNew(r) => case LdEnter(r, f) =>
      case LdAttach(r, f, _) => case LdInstall(_, _, _) => case LdStart(_, _, _) => case LdDiscard(r, f) =>
    }
  }

  lemma ForeignPublished(fib: Fiber)
    ensures Foreign(fib, fib.(published := true))
  {}

  // ----- steps that leave a fiber's driver and its disposal alone -----

  lemma ForeignStep(c: Core, fr: Frame, ch: Choice, g: nat)
    requires Executes(c, fr, ch) && g in c.fibers
    requires !Drives(fr, g)
    ensures g in Exec(c, fr, ch).core.fibers
    ensures Foreign(c.fibers[g], Exec(c, fr, ch).core.fibers[g])
    ensures fr != Refresh(g) ==> Exec(c, fr, ch).core.fibers[g].drive.busy == c.fibers[g].drive.busy
    ensures !fr.Load? ==> Exec(c, fr, ch).core.fibers[g].published == c.fibers[g].published
  {
    hide CoreWf, Foreign, ExecDriver, ExecProvide, ExecLoad, ExecUnload, ExecDisposing, ExecRestarting;
    hide ExecRefresh, ExecDisposer, ExecEffect, PcWf, LoadedFiber;
    ForeignRefl(c.fibers[g]);
    match fr
    case Refresh(f) => ForeignRefresh(c, f, g);
    case Driver(f, pc) => ForeignDriver(c, f, pc, ch, g);
    case RootUnload(f, u) => ForeignUnload(c, f, u, ch, g);
    case NotifyProvided(_) =>
    case NotifyNames(_, _) =>
    case Notify(_, _) =>
    case Wake(_) =>
    case Provide(_, _, _, _, _, _) => ForeignProvide(c, fr, ch, g);
    case Effect(_, _, _) => ForeignEffect(c, fr, ch, g);
    case Disposer(_, _) => ForeignDisposer(c, fr, ch, g);
    case Release(_) => ForeignDisposer(c, fr, ch, g);
    case Disposing(f, ds) => ForeignDisposing(c, f, ds, g);
    case Restarting(f, update, rs) => ForeignRestarting(c, f, update, rs, g);
    case Load(_, _, _, _, _, _) => ForeignLoad(c, fr, ch, g); LoadedForeign(c, fr, g);
  }

  lemma ForeignRefl(a: Fiber)
    ensures Foreign(a, a)
  {}

  /** A driver's step writes its fiber through DriverFiber or UnloadFiber and nothing else's. */
  lemma OwnStep(c: Core, f: nat, pc: Pc, ch: Choice)
    ensures Executes(c, Driver(f, pc), ch) ==>
      var c' := Exec(c, Driver(f, pc), ch).core;
      && f in c'.fibers
      && c'.fibers[f] == (if !pc.Unload? then DriverFiber(c, c.fibers[f], pc, ch)
                          else if pc.u.UDrain? && pc.u.todo != {} then c.fibers[f] else UnloadFiber(c.fibers[f], pc.u))
      && c'.fibers.Keys == c.fibers.Keys
      && c'.bindings == c.bindings && c'.store == c.store && c'.rts == c.rts && c'.runtimes == c.runtimes
  {
    hide CoreWf, DriverFiber, DriverNext, UnloadFiber, UnloadNext, PcWf, FirstSection, ExecNotify, ExecProvide;
    hide ExecEffect, ExecDisposer, ExecLoad, ExecRefresh, ExecRestarting, ExecDisposing, ExecRootUnload, Chooses;
    DriverWrites(c, f, pc, ch);
  }

  /** A new activation is never a driver: only `refresh` becomes one. */
  lemma CallKinds(c: Core, fr: Frame, ch: Choice)
    ensures Executes(c, fr, ch) ==>
      var call := Exec(c, fr, ch).call;
      call.Some? ==>
        || call.value.NotifyProvided? || call.value.Notify? || call.value.Refresh? || call.value.Disposer?
        || (call.value.Disposing? && call.value.ds == DsMark && call.value.f != 0)
  {
    hide CoreWf, DriverFiber, DriverNext, UnloadFiber, UnloadNext, PcWf, ExecUnwind;
    match fr
    case Refresh(_) => case Driver(_, _) => case RootUnload(_, _) => case NotifyProvided(_) => case NotifyNames(_, _) =>
    case Notify(_, _) => case Wake(_) => case Provide(_, _, _, _, _, _) =>
    case Effect(_, _, fx) => UnwindCalls(c, fr, ch);
    case Disposer(e, un) =>
      BindingFacts(c, e);
      UnwindCalls(c, fr, ch);
    case Release(_) => case Disposing(_, _) => case Restarting(_, _, _) => case Load(_, _, _, _, _, _) =>
  }

  lemma UnwindCalls(c: Core, fr: Frame, ch: Choice)
    ensures forall e, f :: f in c.fibers ==>
      var out := ExecUnwind(c, fr, e, f, ch);
      out.Ran? && out.call.Some? ==> out.call.value.Disposer?
  {
    hide Unhandled;
  }

  /** The driver's frame stays a driver's frame until a pass ends with no request recorded; a refresh
      becomes one exactly when it takes an idle fiber; nothing else does. */
  predicate Continues(fr: Frame, before: Fiber, after: Fiber, cont: Option<Frame>) {
    match fr
    case Refresh(f) =>
      && after.drive.busy
      && (before.drive.busy ==> cont.None?)
      && (!before.drive.busy ==> cont == Some(Driver(f, PassStart)))
    case Driver(f, pc) =>
      if cont.Some? then cont.value.Driver? && cont.value.f == f && after.drive.busy == before.drive.busy
      else pc == PassEnd && !after.drive.busy && !before.drive.dirty
    case _ => true
  }

  lemma ContDriver(c: Core, f: nat, pc: Pc, ch: Choice)
    ensures f in c.fibers && PcWf(c, c.fibers[f], pc) && ExecDriver(c, f, pc, ch).Ran? ==>
      f in ExecDriver(c, f, pc, ch).core.fibers
      && Continues(Driver(f, pc), c.fibers[f], ExecDriver(c, f, pc, ch).core.fibers[f], ExecDriver(c, f, pc, ch).cont)
  {
    hide UnloadFiber, UnloadNext, DriverFiber, DriverNext, Chooses, PcWf;
    if f in c.fibers && PcWf(c, c.fibers[f], pc) && ExecDriver(c, f, pc, ch).Ran? {
      if pc.Unload? { UnloadBusy(c.fibers[f], pc.u); } else { DriverBusy(c, c.fibers[f], pc, ch); }
    }
  }

  lemma ContKinds(c: Core, fr: Frame, ch: Choice)
    ensures Executes(c, fr, ch) ==>
      && (Exec(c, fr, ch).cont.Some? && Exec(c, fr, ch).cont.value.Driver? ==> fr.Refresh? || fr.Driver?)
      && (fr.Refresh? || fr.Driver? ==>
         fr.f in c.fibers && fr.f in Exec(c, fr, ch).core.fibers)
      && (fr.Refresh? || fr.Driver? ==>
         Continues(fr, c.fibers[fr.f], Exec(c, fr, ch).core.fibers[fr.f], Exec(c, fr, ch).cont))
  {
    hide CoreWf, PcWf, ExecDriver, ExecUnload;
    match fr
    case Refresh(f) =>
    case Driver(f, pc) => ContDriver(c, f, pc, ch);
    case RootUnload(f, u) =>
    case NotifyProvided(_) =>
    case NotifyNames(_, _) =>
    case Notify(_, _) =>
    case Wake(_) =>
    case Provide(_, _, _, _, _, pv) =>
    case Effect(_, _, _) =>
    case Disposer(_, un) =>
    case Release(_) =>
    case Disposing(f, ds) =>
    case Restarting(f, update, rs) =>
    case Load(_, _, _, _, _, ld) =>
  }

  /** The driver keeps its fiber until a pass ends with no request recorded. */
  lemma DriverBusy(c: Core, fib: Fiber, pc: Pc, ch: Choice)
    ensures PcWf(c, fib, pc) ==>
      (!pc.Unload? ==> DriverFiber(c, fib, pc, ch).drive.busy == (fib.drive.busy && DriverNext(c, fib, pc, ch).Some?))
      && (DriverNext(c, fib, pc, ch).None? ==> pc == PassEnd && !fib.drive.dirty)
  {
    hide PcWf, DriverLife;
    match pc
    case PassStart => case SyncTop => case Resolve(_, _, _) => case ResolveState(_, _, _, _, _) =>
    case DecideMiss(_) => case DecideHit(_) => case ApplyUnload(_) => case ApplyLoad(_) => case LoadClaim(_) =>
    case LoadState(_) => case LoadCheck(_, _) => case GiveBack => case GiveBackState => case GiveBackRefresh =>
    case LoadCommit(_) => case Config => case Body => case BodyDone => case BodyActive => case Unload(_, _) =>
    case ReloadMid => case FailMid => case FailState => case PassEnd =>
  }

  lemma UnloadBusy(fib: Fiber, u: UPc)
    ensures UnloadFiber(fib, u).drive.busy == fib.drive.busy
  {
    match u
    case UClaim =>
    case UState =>
    case UClear =>
    case UDrain(_) =>
    case UReset =>
    case UPending =>
    case UFinal =>
  }

  // ----- single owner -----

  ghost predicate HasOwner(pool: map<nat, Frame>, f: nat) {
    exists t :: t in pool && Owns(pool[t], f)
  }

  /** At most one activation is inside `drive` for a fiber, and `busy` says whether there is one. */
  ghost predicate SingleOwner(s: Sys) {
    && (forall t, u :: t in s.pool && u in s.pool && s.pool[t].Driver? && Owns(s.pool[u], s.pool[t].f) ==> t == u)
    && (forall f :: f in s.core.fibers ==> (s.core.fibers[f].drive.busy <==> HasOwner(s.pool, f)))
  }

  lemma OwnerStep(s: Sys, t: nat, ch: Choice, s': Sys)
    ensures SysWf(s) && SingleOwner(s) && Steps(s, t, ch, s') ==> SingleOwner(s')
  {
    hide CoreWf, FrameWf, Exec;
    if SysWf(s) && SingleOwner(s) && Steps(s, t, ch, s') {
      var c, fr, c' := s.core, s.pool[t], s'.core;
      CallKinds(c, fr, ch);
      ContKinds(c, fr, ch);
      assert s.next !in s.pool;
      forall k, l | k in s'.pool && l in s'.pool && s'.pool[k].Driver?
          && Owns(s'.pool[l], s'.pool[k].f) ensures k == l {
        OwnersMeet(s, t, ch, s', k, l);
      }
      forall f | f in c'.fibers ensures c'.fibers[f].drive.busy <==> HasOwner(s'.pool, f) {
        BusyStep(s, t, ch, s', f);
      }
    }
  }

  lemma OwnersMeet(s: Sys, t: nat, ch: Choice, s': Sys, k: nat, l: nat)
    requires SysWf(s) && SingleOwner(s) && Steps(s, t, ch, s')
    requires k in s'.pool && l in s'.pool && s'.pool[k].Driver? && Owns(s'.pool[l], s'.pool[k].f)
    ensures k == l
  {
    hide CoreWf, FrameWf, Exec;
    var fr := s.pool[t];
    CallKinds(s.core, fr, ch);
    ContKinds(s.core, fr, ch);
    assert FrameWf(s.core, fr);
    if fr.Refresh? && !s.core.fibers[fr.f].drive.busy {
      assert !HasOwner(s.pool, fr.f);
    }
  }

  /** Only a refresh and the owner itself write whether a fiber is busy, and a new fiber is not. */
  lemma BusyAfter(c: Core, fr: Frame, ch: Choice, f: nat)
    ensures Executes(c, fr, ch) && f in Exec(c, fr, ch).core.fibers ==>
      (f in c.fibers ==>
          fr == Refresh(f) || Owns(fr, f) || Exec(c, fr, ch).core.fibers[f].drive.busy == c.fibers[f].drive.busy)
      && (f !in c.fibers ==> !Exec(c, fr, ch).core.fibers[f].drive.busy)
      && (f !in c.fibers ==> fr != Refresh(f) && !Owns(fr, f))
  {
    hide CoreWf, FrameWf, Exec, Foreign, PcWf;
    if Executes(c, fr, ch) && f in Exec(c, fr, ch).core.fibers {
      if f in c.fibers {
        if !Drives(fr, f) { ForeignStep(c, fr, ch, f); }
        if fr.RootUnload? { RootStepBusy(c, fr.f, fr.u, ch); }
      } else {
        Newborn(c, fr, ch, f);
      }
    }
  }

  lemma BusyStep(s: Sys, t: nat, ch: Choice, s': Sys, f: nat)
    ensures SysWf(s) && SingleOwner(s) && Steps(s, t, ch, s') && f in s'.core.fibers ==>
      (s'.core.fibers[f].drive.busy <==> HasOwner(s'.pool, f))
  {
    hide CoreWf, FrameWf, Exec, PcWf;
    if SysWf(s) && SingleOwner(s) && Steps(s, t, ch, s') && f in s'.core.fibers {
      var c, fr, c' := s.core, s.pool[t], s'.core;
      CallKinds(c, fr, ch);
      ContKinds(c, fr, ch);
      BusyAfter(c, fr, ch, f);
      if f !in c.fibers { NoOwner(s, f); }
      if HasOwner(s.pool, f) {
        var k :| k in s.pool && Owns(s.pool[k], f);
        assert k != t ==> k in s'.pool && Owns(s'.pool[k], f);
        assert k == t && s'.core.fibers[f].drive.busy ==> t in s'.pool && Owns(s'.pool[t], f);
      }
      if HasOwner(s'.pool, f) {
        var k :| k in s'.pool && Owns(s'.pool[k], f);
        assert k != t ==> k in s.pool && Owns(s.pool[k], f);
      }
      if fr == Refresh(f) && s'.core.fibers[f].drive.busy && !c.fibers[f].drive.busy {
        assert t in s'.pool && Owns(s'.pool[t], f);
      }
    }
  }

  lemma RootStepBusy(c: Core, f: nat, u: UPc, ch: Choice)
    ensures Executes(c, RootUnload(f, u), ch) ==>
      var c' := Exec(c, RootUnload(f, u), ch).core;
      f in c.fibers && f in c'.fibers
      && c'.fibers[f].drive.busy == c.fibers[f].drive.busy
  {
    hide CoreWf, ExecUnload, ExecDriver, ExecLoad, ExecNotify;
    RootBusy(c, f, u, ch);
  }

  lemma RootBusy(c: Core, f: nat, u: UPc, ch: Choice)
    ensures f in c.fibers && UPcWf(c, u) ==>
      var out := ExecUnload(c, f, u, ch); out.UMoved? ==>
          f in out.core.fibers && out.core.fibers[f].drive.busy == c.fibers[f].drive.busy
  {
    hide UnloadFiber, UnloadNext;
    if f in c.fibers && UPcWf(c, u) {
      UnloadBusy(c.fibers[f], u);
    }
  }

  // ----- what the sections of one activation write -----

  /** Requests and notifications. */
  predicate OnlyAsks(fr: Frame) {
    fr.Refresh? || fr.NotifyProvided? || fr.NotifyNames? || fr.Notify? || fr.Wake? || fr.Restarting?
  }

  /** Nothing but the drivers and errors of fibers differs. */
  predicate SameWork(c: Core, c': Core) {
    && c'.entries == c.entries && c'.store == c.store && c'.bindings == c.bindings
    && (forall f :: f in c.fibers ==> f in c'.fibers && SameFiberWork(c.fibers[f], c'.fibers[f]))
  }

  predicate SameFiberWork(a: Fiber, b: Fiber) {
    b.fixed == a.fixed && b.life == a.life && b.snapshot == a.snapshot && b.list == a.list
  }

  lemma RefreshSame(c: Core, f: nat)
    ensures SameWork(c, ExecRefresh(c, f).core)
  {
    hide Marked, Taken;
    if f in c.fibers && c.fibers[f].drive.busy {
      assert ExecRefresh(c, f).core == With(c, f, WithDrive(c.fibers[f], Marked(c.fibers[f].drive)));
    }
  }

  lemma RestartSame(c: Core, f: nat, update: bool, rs: RestartPc)
    ensures SameWork(c, ExecRestarting(c, f, update, rs).core)
  {}

  lemma AskingWrites(c: Core, fr: Frame, ch: Choice)
    ensures Fits(c, fr) && OnlyAsks(fr) ==> SameWork(c, Exec(c, fr, ch).core)
  {
    hide Fits, SameFiberWork, ExecRefresh, ExecDriver, ExecRootUnload, ExecNotify, ExecProvide, ExecEffect;
    hide ExecDisposer, ExecLoad, ExecDisposing, ExecRestarting;
    NotifyKeeps(c, fr, ch);
    assert forall f :: f in c.fibers ==> SameFiberWork(c.fibers[f], c.fibers[f]) by { FiberWorkRefl(c); }
    match fr
    case Refresh(f) => RefreshSame(c, f);
    case Restarting(f, update, rs) => RestartSame(c, f, update, rs);
    case _ =>
  }

  lemma FiberWorkRefl(c: Core)
    ensures SameWork(c, c)
  {}

  /** Runtimes and drivers are left alone, and no fiber is made. */
  predicate Light(c: Core, c': Core) {
    && c'.rts == c.rts && c'.runtimes == c.runtimes && c'.fibers.Keys == c.fibers.Keys
    && (forall f :: f in c.fibers ==>
          c'.fibers[f].drive == c.fibers[f].drive && c'.fibers[f].disposed == c.fibers[f].disposed)
  }

  lemma LightWith(c: Core, c': Core, f: nat, fib: Fiber)
    ensures f in c.fibers && c'.rts == c.rts && c'.runtimes == c.runtimes ==>
      && (c'.fibers == c.fibers ==> Light(c, c'))
      && (c'.fibers == c.fibers[f := fib] && fib.drive == c.fibers[f].drive && fib.disposed == c.fibers[f].disposed ==>
            Light(c, c'))
  {}

  lemma ProvideLight(c: Core, fr: Frame, ch: Choice)
    ensures Light(c, ExecProvide(c, fr, ch).core)
    ensures fr.Provide? && !fr.pv.PvRegister? ==> ExecProvide(c, fr, ch).core.bindings == c.bindings
  {
    hide CoreWf, FirstSection, OwnerWf, PcWf, LoadWf, EffectWf, Accepts, NumberedFor, Light, Finished, Entered;
    var c' := ExecProvide(c, fr, ch).core;
    LightRefl(c);
    if Fits(c, fr) && fr.Provide? {
      var fib := c.fibers[fr.f];
      match fr.pv
      case PvAlloc => LightWith(c, c', fr.f, fib);
      case PvGate(_) => case PvNotify(_) =>
      case PvRegister(_) => LightWith(c, c', fr.f, fib);
      case PvInstall(_) => LightWith(c, c', fr.f, fib);
      case PvEnter(e) => EnteredKeeps(fib, e, fr.owner); LightWith(c, c', fr.f, Entered(fib, e, fr.owner));
      case PvAbort(e) => FinishedKeeps(c, e, fr.f); LightWith(c, c', fr.f, fib.(list := fib.list - {e}));
      case PvSnapshot(e) =>
        if fib.snapshot.Some? { LightWith(c, c', fr.f, WithSnapshot(fib, fib.snapshot.value[fr.name := e])); }
    }
  }

  lemma EnteredKeeps(fib: Fiber, e: nat, owner: Option<nat>)
    ensures Entered(fib, e, owner).drive == fib.drive && Entered(fib, e, owner).disposed == fib.disposed
  {}

  lemma LightRefl(c: Core)
    ensures Light(c, c)
  {}

  lemma UnwindLight(c: Core, fr: Frame, e: nat, f: nat, ch: Choice)
    ensures var c' := ExecUnwind(c, fr, e, f, ch).core;
      Light(c, c') && c'.bindings == c.bindings && (e in c.entries ==> c'.entries.Keys == c.entries.Keys)
  {
    hide Unhandled, FirstSection, Light, Finished, ReleaseChild;
    LightRefl(c);
    if f in c.fibers {
      LightWith(c, Finished(c, e, f), f, c.fibers[f].(list := c.fibers[f].list - {e}));
      FinishedKeeps(c, e, f);
      ReleaseKeeps(c, fr, ch.entry);
      LightWith(c, ReleaseChild(c, fr, ch.entry).core, f, c.fibers[f]);
    }
  }

  lemma FinishedKeeps(c: Core, e: nat, f: nat)
    ensures f in c.fibers ==>
      var c' := Finished(c, e, f);
      && c'.rts == c.rts && c'.runtimes == c.runtimes && c'.bindings == c.bindings && c'.entries == c.entries[e := Done]
      && c'.fibers == c.fibers[f := c.fibers[f].(list := c.fibers[f].list - {e})]
  {}

  lemma ReleaseKeeps(c: Core, fr: Frame, k: nat)
    ensures var c' := ReleaseChild(c, fr, k).core;
      && c'.rts == c.rts && c'.runtimes == c.runtimes && c'.bindings == c.bindings && c'.fibers == c.fibers
      && c'.entries.Keys == c.entries.Keys
  {
    hide FirstSection;
  }

  lemma EffectLight(c: Core, fr: Frame, ch: Choice)
    ensures Light(c, ExecEffect(c, fr, ch).core) && ExecEffect(c, fr, ch).core.bindings == c.bindings
  {
    hide CoreWf, FirstSection, ExecUnwind, PcWf, LoadWf, ProvideWf, OwnerWf, Accepts, Light, NumberedFor;
    var c' := ExecEffect(c, fr, ch).core;
    LightRefl(c);
    if Fits(c, fr) && fr.Effect? {
      if fr.fx.FxAbandon? { UnwindLight(c, fr, fr.fx.e, fr.f, ch); }
      else { LightWith(c, c', fr.f, Entered(c.fibers[fr.f], c.bindingSeq + 1, fr.owner)); }
    }
  }

  lemma DisposerLight(c: Core, fr: Frame, ch: Choice)
    ensures var c' := ExecDisposer(c, fr, ch).core;
      && Light(c, c') && c'.entries.Keys == c.entries.Keys
      && (fr.Release? || (fr.Disposer? && !fr.un.UnRegister?) ==> c'.bindings == c.bindings)
  {
    hide CoreWf, FirstSection, ExecUnwind, PcWf, LoadWf, ProvideWf, EffectWf, Light;
    var c' := ExecDisposer(c, fr, ch).core;
    LightRefl(c);
    if Fits(c, fr) && (fr.Disposer? || fr.Release?) {
      BindingFacts(c, fr.e);
      var p := c.store[fr.e].provider;
      LightWith(c, c', p, c.fibers[p]);
      if fr.Disposer? {
        match fr.un
        case UnRegister => case UnChild =>
        case UnSnapshot => LightWith(c, c', p, c'.fibers[p]);
        case UnDone => UnwindLight(c, fr, fr.e, c.store[fr.e].provider, ch);
      }
    }
  }

  lemma DisposingKeeps(c: Core, f: nat, ds: DisposePc)
    ensures var c' := ExecDisposing(c, f, ds).core; c'.bindings == c.bindings && c'.entries == c.entries
  {
    hide CoreWf, RemoveFiber, FiberWf;
    if CoreWf(c) && f in c.fibers {
      CoreFacts(c, f);
      if !c.fibers[f].fixed.root { RemoveKeeps(c, c.fibers[f].fixed.runtime, f); }
      match ds
      case DsMark => case DsRemove => case DsRefresh =>
    }
  }

  /** One section of `unload` writes entries it names and its own fiber. */
  predicate OwnWritesOnly(c: Core, c': Core, g: nat) {
    && c'.fibers.Keys == c.fibers.Keys && c'.entries.Keys == c.entries.Keys
    && c'.rts == c.rts && c'.runtimes == c.runtimes && c'.bindings == c.bindings && c'.store == c.store
    && (forall f :: f in c.fibers && f != g ==> c'.fibers[f] == c.fibers[f])
  }

  lemma UnloadWrites(c: Core, g: nat, u: UPc, ch: Choice)
    ensures OwnWritesOnly(c, ExecUnload(c, g, u, ch).core, g)
  {
    hide UnloadFiber, UnloadNext, FirstSection;
  }

  lemma DriverWrites(c: Core, g: nat, pc: Pc, ch: Choice)
    ensures OwnWritesOnly(c, ExecDriver(c, g, pc, ch).core, g)
  {
    hide UnloadFiber, UnloadNext, DriverFiber, DriverNext, Chooses, ExecUnload, PcWf;
    if pc.Unload? { UnloadWrites(c, g, pc.u, ch); }
  }

  /** A fiber that a step creates is pristine, and only `newFiber` creates one. */
  lemma Newborn(c: Core, fr: Frame, ch: Choice, f: nat)
    ensures Executes(c, fr, ch) && f !in c.fibers && f in Exec(c, fr, ch).core.fibers ==>
      fr.Load? && fr.ld.LdNew?
      && Exec(c, fr, ch).core.fibers[f] == NewFiber(fr.parent, fr.ld.r, fr.inject, fr.scope)
      && Exec(c, fr, ch).call.None? && Exec(c, fr, ch).cont == Some(fr.(ld := LdEnter(fr.ld.r, f)))
  {
    hide CoreWf, ExecDriver, ExecProvide, ExecLoad, ExecUnload, ExecDisposer, ExecEffect, PcWf;
    match fr
    case Refresh(_) =>
    case Driver(g, pc) => DriverWrites(c, g, pc, ch);
    case RootUnload(g, u) => UnloadWrites(c, g, u, ch);
    case NotifyProvided(_) =>
    case NotifyNames(_, _) =>
    case Notify(_, _) =>
    case Wake(_) =>
    case Provide(_, _, _, _, _, _) => ProvideLight(c, fr, ch);
    case Effect(_, _, _) => EffectLight(c, fr, ch);
    case Disposer(_, _) => DisposerLight(c, fr, ch);
    case Release(_) => DisposerLight(c, fr, ch);
    case Disposing(_, ds) =>
    case Restarting(_, _, rs) =>
    case Load(_, _, _, _, _, _) => BirthLoad(c, fr, ch, f);
  }

  lemma BirthLoad(c: Core, fr: Frame, ch: Choice, f: nat)
    ensures Fits(c, fr) && fr.Load? && f !in c.fibers && f in ExecLoad(c, fr, ch).core.fibers ==>
      fr.ld.LdNew? && ExecLoad(c, fr, ch).core.fibers[f] == NewFiber(fr.parent, fr.ld.r, fr.inject, fr.scope)
      && ExecLoad(c, fr, ch).call.None? && ExecLoad(c, fr, ch).cont == Some(fr.(ld := LdEnter(fr.ld.r, f)))
  {
    hide CoreWf, Accepts, PcWf;
    if Fits(c, fr) && fr.Load? && f !in c.fibers && f in ExecLoad(c, fr, ch).core.fibers {
      match fr.ld
      case LdGate => case LdClaim => case LdNew(r) => case LdEnter(r, _) =>
      case LdAttach(r, _, _) => case LdInstall(_, _, _) => case LdStart(_, _, _) => case LdDiscard(r, _) =>
    }
  }

  lemma NoOwner(s: Sys, f: nat)
    ensures SysWf(s) && f !in s.core.fibers ==> !HasOwner(s.pool, f)
  {
    hide CoreWf;
    if SysWf(s) && HasOwner(s.pool, f) {
      var t :| t in s.pool && Owns(s.pool[t], f);
      assert FrameWf(s.core, s.pool[t]);
    }
  }

  lemma NoOwners(s: Sys, f: nat)
    ensures SingleOwner(s) && f in s.core.fibers && !s.core.fibers[f].drive.busy ==>
      forall t :: t in s.pool ==> !Owns(s.pool[t], f)
  {
    if SingleOwner(s) && f in s.core.fibers && !s.core.fibers[f].drive.busy {
      assert !HasOwner(s.pool, f);
    }
  }

  lemma OwnerCall(s: Sys, fr: Frame, s': Sys)
    ensures SysWf(s) && SingleOwner(s) && Calls(s, fr, s') ==> SingleOwner(s')
  {
    hide CoreWf, FrameWf;
    if SysWf(s) && SingleOwner(s) && Calls(s, fr, s') {
      forall f | f in s.core.fibers ensures s.core.fibers[f].drive.busy <==> HasOwner(s'.pool, f) {
        if HasOwner(s.pool, f) {
          var k :| k in s.pool && Owns(s.pool[k], f);
          assert k in s'.pool && Owns(s'.pool[k], f);
        }
      }
    }
  }
}
