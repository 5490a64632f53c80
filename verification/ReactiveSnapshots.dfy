/** The snapshot cache: a fiber's snapshot holds what its generation resolved and what the fiber itself
    still provides, and looking a service up through the snapshots of the ancestor chain gives at
    quiescence exactly what the live registry gives (context.go). */
module ReactiveSnapshots {
  import opened Options
  import opened Reactive
  import opened ReactiveWf
  import opened ReactiveDriver
  import opened ReactiveQuiescence
  import opened ReactiveEntries
  import opened ReactiveRoot

  /** The recorded epoch names this binding for `name`. */
  predicate Pinned(fib: Fiber, name: Name, key: Key) {
    name in fib.fixed.inject &&
    match fib.life.epoch
    case Inactive => true
    case Gen(keys) => name in keys && keys[name] == key
  }

  ghost predicate Withdrawing(pool: map<nat, Frame>, e: nat) {
    exists t :: t in pool && pool[t] == Disposer(e, UnSnapshot)
  }

  /** A registration of the fiber itself, in its slot or about to leave the snapshot. */
  ghost predicate OwnHeld(c: Core, pool: map<nat, Frame>, f: nat, e: nat) {
    e in c.store && c.store[e].provider == f && (AtSlot(c, e) || Withdrawing(pool, e))
  }

  ghost predicate EntryOk(c: Core, pool: map<nat, Frame>, f: nat, fib: Fiber, name: Name, e: nat) {
    e in c.store && (Pinned(fib, name, KeyOf(c, e)) || OwnHeld(c, pool, f, e))
  }

  ghost predicate SnapOk(s: Sys, f: nat) {
    f in s.core.fibers && s.core.fibers[f].snapshot.Some? ==>
      forall n :: n in s.core.fibers[f].snapshot.value ==>
        EntryOk(s.core, s.pool, f, s.core.fibers[f], n, s.core.fibers[f].snapshot.value[n])
  }

  // ----- what one step writes to a snapshot -----

  predicate Forgets(was: Fiber, fib: Fiber) {
    fib.snapshot.None?
        || (fib.snapshot == was.snapshot && (fib.life.epoch == was.life.epoch || fib.life.epoch == Inactive))
  }

  predicate Commits(c: Core, fr: Frame, f: nat, fib: Fiber) {
    && Owns(fr, f) && fr.pc.LoadCommit?
    && GotWf(c, fib.fixed.inject, fr.pc.got) && fr.pc.got.Keys == fib.fixed.inject
    && fib.snapshot == Some(fr.pc.got) && fib.life.epoch == Gen(KeysOf(c, fr.pc.got))
  }

  predicate Provides(fr: Frame, f: nat, was: Fiber, fib: Fiber) {
    && fr.Provide? && fr.f == f && fr.pv.PvSnapshot? && was.snapshot.Some?
    && fib.snapshot == Some(was.snapshot.value[fr.name := fr.pv.e]) && fib.life.epoch == was.life.epoch
  }

  predicate Withdraws(c: Core, fr: Frame, f: nat, was: Fiber, fib: Fiber) {
    && fr.Disposer? && fr.un == UnSnapshot && fr.e in c.store && c.store[fr.e].provider == f && was.snapshot.Some?
    && fib.snapshot == Some(was.snapshot.value - {c.store[fr.e].name}) && fib.life.epoch == was.life.epoch
  }

  predicate SnapMoves(c: Core, c': Core, fr: Frame, f: nat) {
    && f in c.fibers && f in c'.fibers && c'.fibers[f].fixed == c.fibers[f].fixed
    && (|| Forgets(c.fibers[f], c'.fibers[f]) || Commits(c, fr, f, c'.fibers[f])
        || Provides(fr, f, c.fibers[f], c'.fibers[f]) || Withdraws(c, fr, f, c.fibers[f], c'.fibers[f]))
    && (fr.Disposer? && fr.un == UnSnapshot && fr.e in c.store && c.store[fr.e].provider == f ==>
          c'.fibers[f].snapshot.None? || Withdraws(c, fr, f, c.fibers[f], c'.fibers[f]))
  }

  lemma MovesSame(c: Core, c': Core, fr: Frame, f: nat)
    requires f in c.fibers && f in c'.fibers && c'.fibers[f].fixed == c.fibers[f].fixed
    requires c'.fibers[f].snapshot == c.fibers[f].snapshot
    requires c'.fibers[f].life.epoch == c.fibers[f].life.epoch
    requires !fr.Disposer? || fr.un != UnSnapshot || (fr.e in c.store && c.store[fr.e].provider != f)
    ensures SnapMoves(c, c', fr, f)
  {}

  lemma MovesUnload(fib: Fiber, u: UPc)
    ensures Forgets(fib, UnloadFiber(fib, u)) && UnloadFiber(fib, u).fixed == fib.fixed
  {
    match u
    case UClaim => case UState => case UClear => case UDrain(_) => case UReset => case UPending => case UFinal =>
  }

  lemma MovesPc(c: Core, f: nat, fib: Fiber, pc: Pc, ch: Choice)
    ensures PcWf(c, fib, pc) ==>
      var fib' := DriverFiber(c, fib, pc, ch);
      fib'.fixed == fib.fixed && (Forgets(fib, fib') || Commits(c, Driver(f, pc), f, fib'))
  {
    hide GotWf, KeysOf;
    match pc
    case PassStart => case SyncTop => case Resolve(_, _, _) => case ResolveState(_, _, _, _, _) =>
    case DecideMiss(_) => case DecideHit(_) => case ApplyUnload(_) => case ApplyLoad(_) => case LoadClaim(_) =>
    case LoadState(_) => case LoadCheck(_, _) => case GiveBack => case GiveBackState => case GiveBackRefresh =>
    case LoadCommit(_) => case Config => case Body => case BodyDone => case BodyActive => case Unload(_, _) =>
    case ReloadMid => case FailMid => case FailState => case PassEnd =>
  }

  lemma MovesOwn(c: Core, f: nat, pc: Pc, ch: Choice)
    ensures Executes(c, Driver(f, pc), ch) ==> SnapMoves(c, Exec(c, Driver(f, pc), ch).core, Driver(f, pc), f)
  {
    hide CoreWf, Exec, PcWf, DriverFiber, UnloadFiber;
    if Executes(c, Driver(f, pc), ch) {
      OwnStep(c, f, pc, ch);
      MovesPc(c, f, c.fibers[f], pc, ch);
      if pc.Unload? { MovesUnload(c.fibers[f], pc.u); }
    }
  }

  lemma MovesRoot(c: Core, u: UPc, ch: Choice)
    ensures Executes(c, RootUnload(0, u), ch) ==>
      SnapMoves(c, Exec(c, RootUnload(0, u), ch).core, RootUnload(0, u), 0)
  {
    hide CoreWf, Exec, UnloadFiber, Executes;
    if Executes(c, RootUnload(0, u), ch) {
      RootUnloads(c, u, ch);
      MovesUnload(c.fibers[0], u);
    }
  }

  lemma MovesProvide(c: Core, fr: Frame, ch: Choice, f: nat)
    ensures Fits(c, fr) && fr.Provide? && f in c.fibers ==> SnapMoves(c, ExecProvide(c, fr, ch).core, fr, f)
  {
    hide CoreWf, FrameWf;
    if Fits(c, fr) && fr.Provide? && f in c.fibers {
      match fr.pv
      case PvAlloc => case PvGate(_) => case PvEnter(_) => case PvRegister(_) =>
      case PvAbort(_) => case PvSnapshot(_) => case PvNotify(_) => case PvInstall(_) =>
    }
  }

  lemma MovesUnwind(c: Core, fr: Frame, e: nat, g: nat, ch: Choice, f: nat)
    requires g in c.fibers && f in c.fibers && ExecUnwind(c, fr, e, g, ch).Ran? && (fr.Disposer? ==> fr.un.UnDone?)
    ensures SnapMoves(c, ExecUnwind(c, fr, e, g, ch).core, fr, f)
  {
    hide Unhandled, SnapMoves;
    if Unhandled(c, e) == {} {
      MovesSame(c, Finished(c, e, g), fr, f);
    } else {
      MovesSame(c, ExecUnwind(c, fr, e, g, ch).core, fr, f);
    }
  }

  lemma MovesEffect(c: Core, fr: Frame, ch: Choice, f: nat)
    ensures Fits(c, fr) && fr.Effect? && f in c.fibers && ExecEffect(c, fr, ch).Ran? ==>
      SnapMoves(c, ExecEffect(c, fr, ch).core, fr, f)
  {
    hide CoreWf, ExecUnwind, Accepts, SnapMoves, PcWf;
    if Fits(c, fr) && fr.Effect? && f in c.fibers && ExecEffect(c, fr, ch).Ran? {
      if fr.fx.FxAbandon? { MovesUnwind(c, fr, fr.fx.e, fr.f, ch, f); }
      else { MovesSame(c, ExecEffect(c, fr, ch).core, fr, f); }
    }
  }

  lemma MovesDisposer(c: Core, e: nat, un: DisposerPc, ch: Choice, f: nat)
    ensures Fits(c, Disposer(e, un)) && f in c.fibers && ExecDisposer(c, Disposer(e, un), ch).Ran? ==>
      SnapMoves(c, ExecDisposer(c, Disposer(e, un), ch).core, Disposer(e, un), f)
  {
    hide CoreWf, ExecUnwind, PcWf;
    if Fits(c, Disposer(e, un)) && f in c.fibers && ExecDisposer(c, Disposer(e, un), ch).Ran? {
      BindingFacts(c, e);
      match un
      case UnRegister => case UnSnapshot => case UnChild =>
      case UnDone => MovesUnwind(c, Disposer(e, un), e, c.store[e].provider, ch, f);
    }
  }

  lemma MovesDisposing(c: Core, g: nat, ds: DisposePc, f: nat)
    ensures CoreWf(c) && g in c.fibers && f in c.fibers ==>
      SnapMoves(c, ExecDisposing(c, g, ds).core, Disposing(g, ds), f)
  {
    hide CoreWf, RemoveFiber, FiberWf;
    if CoreWf(c) && g in c.fibers && f in c.fibers {
      CoreFacts(c, g);
      if !c.fibers[g].fixed.root { RemoveKeeps(c, c.fibers[g].fixed.runtime, g); }
      match ds
      case DsMark => case DsRemove => case DsRefresh =>
    }
  }

  lemma DriverKnown(c: Core, g: nat, pc: Pc)
    ensures FrameWf(c, Driver(g, pc)) ==> g in c.fibers && PcWf(c, c.fibers[g], pc)
  {
    hide PcWf;
  }

  lemma RootKnown(c: Core, g: nat, u: UPc)
    ensures FrameWf(c, RootUnload(g, u)) ==> g == 0 && g in c.fibers && UPcWf(c, u)
  {
    hide UPcWf, PcWf;
  }

  lemma Moves(c: Core, fr: Frame, ch: Choice, f: nat)
    ensures Executes(c, fr, ch) && f in c.fibers ==> SnapMoves(c, Exec(c, fr, ch).core, fr, f)
  {
    hide CoreWf, FrameWf, PcWf, SnapMoves, ExecDriver, ExecUnload, ExecProvide, ExecDisposer, ExecEffect;
    hide ExecLoad, ExecDisposing, ExecNotify, ExecRefresh, ExecRestarting, LoadedFiber;
    if Executes(c, fr, ch) && f in c.fibers {
      match fr
      case Refresh(_) => MovesQuiet(c, fr, ch, f);
      case Driver(g, pc) =>
        DriverKnown(c, g, pc);
        if g == f {
          MovesOwn(c, f, pc, ch);
        } else {
          DriverWrites(c, g, pc, ch);
          MovesSame(c, Exec(c, fr, ch).core, fr, f);
        }
      case RootUnload(g, u) =>
        RootKnown(c, g, u);
        if g == f {
          MovesRoot(c, u, ch);
        } else {
          UnloadWrites(c, g, u, ch);
          MovesSame(c, Exec(c, fr, ch).core, fr, f);
        }
      case NotifyProvided(_) => MovesQuiet(c, fr, ch, f);
      case NotifyNames(_, _) => MovesQuiet(c, fr, ch, f);
      case Notify(_, _) => MovesQuiet(c, fr, ch, f);
      case Wake(_) => MovesQuiet(c, fr, ch, f);
      case Provide(_, _, _, _, _, _) => MovesProvide(c, fr, ch, f);
      case Effect(_, _, _) => MovesEffect(c, fr, ch, f);
      case Disposer(e, un) => MovesDisposer(c, e, un, ch, f);
      case Release(_) => MovesRelease(c, fr, ch, f);
      case Disposing(g, ds) => DisposingKnown(c, fr); MovesDisposing(c, g, ds, f);
      case Restarting(_, _, _) => MovesQuiet(c, fr, ch, f);
      case Load(_, _, _, _, _, _) => ForeignLoad(c, fr, ch, f); LoadedForeign(c, fr, f);
          MovesSame(c, Exec(c, fr, ch).core, fr, f);
    }
  }

  /** These write neither a snapshot nor an epoch. */
  lemma MovesQuiet(c: Core, fr: Frame, ch: Choice, f: nat)
    requires Executes(c, fr, ch) && f in c.fibers && OnlyAsks(fr)
    ensures SnapMoves(c, Exec(c, fr, ch).core, fr, f)
  {
    hide CoreWf, FrameWf, SnapMoves, Exec;
    AskingWrites(c, fr, ch);
    MovesSame(c, Exec(c, fr, ch).core, fr, f);
  }

  lemma MovesRelease(c: Core, fr: Frame, ch: Choice, f: nat)
    ensures Fits(c, fr) && fr.Release? && f in c.fibers ==> SnapMoves(c, ExecDisposer(c, fr, ch).core, fr, f)
  {}

  // ----- the snapshot invariant -----

  /** An own registration leaves its slot only through its disposer, which then cleans the snapshot. */
  lemma OwnHeldStep(s: Sys, t: nat, ch: Choice, s': Sys, f: nat, e: nat)
    ensures SysWf(s) && HoldersOk(s) && Steps(s, t, ch, s') && OwnHeld(s.core, s.pool, f, e) ==>
      OwnHeld(s'.core, s'.pool, f, e) || s.pool[t] == Disposer(e, UnSnapshot)
  {
    hide CoreWf, FrameWf, Exec, AtSlot, HoldersOk, Grows;
    if SysWf(s) && HoldersOk(s) && Steps(s, t, ch, s') && OwnHeld(s.core, s.pool, f, e) {
      var c, fr := s.core, s.pool[t];
      ExecWf(c, fr, ch);
      GrowsStore(c, s'.core, e);
      assert s.next !in s.pool;
      if Withdrawing(s.pool, e) {
        var k :| k in s.pool && s.pool[k] == Disposer(e, UnSnapshot);
        if k != t { assert k in s'.pool && s'.pool[k] == Disposer(e, UnSnapshot); }
      } else {
        SlotStep(s, t, ch, s', e);
      }
    }
  }

  lemma SlotStep(s: Sys, t: nat, ch: Choice, s': Sys, e: nat)
    ensures SysWf(s) && HoldersOk(s) && Steps(s, t, ch, s') && AtSlot(s.core, e) ==>
      AtSlot(s'.core, e) || Withdrawing(s'.pool, e)
  {
    hide CoreWf, FrameWf, Exec, HoldersOk, Grows;
    if SysWf(s) && HoldersOk(s) && Steps(s, t, ch, s') && AtSlot(s.core, e) {
      var c, fr := s.core, s.pool[t];
      SlotKnown(c, c.store[e].at);
      ExecWf(c, fr, ch);
      GrowsStore(c, s'.core, e);
      Kept(c, fr, ch, e);
      if Holds(fr) == Some(e) {
        if fr.Disposer? && fr.un == UnRegister {
          UnregisterCont(c, fr, ch);
          assert s'.pool[t] == Disposer(e, UnSnapshot);
        } else {
          KeptBindings(c, fr, ch);
        }
      }
    }
  }

  lemma UnregisterCont(c: Core, fr: Frame, ch: Choice)
    ensures Fits(c, fr) && fr.Disposer? && fr.un == UnRegister ==>
      Exec(c, fr, ch).Ran? && Exec(c, fr, ch).cont == Some(Disposer(fr.e, UnSnapshot))
  {
    hide CoreWf, FrameWf, ExecDriver, ExecLoad, ExecRootUnload, ExecNotify, ExecProvide, ExecEffect;
    hide ExecDisposing, ExecUnwind;
  }

  /** Only a disposer's first section withdraws a registration. */
  lemma KeptBindings(c: Core, fr: Frame, ch: Choice)
    ensures Executes(c, fr, ch) && !(fr.Disposer? && fr.un == UnRegister) ==>
      var c' := Exec(c, fr, ch).core; forall at :: at in c.bindings ==>
          at in c'.bindings && c'.bindings[at] == c.bindings[at]
  {
    hide CoreWf, FrameWf, ExecDriver, ExecLoad, ExecRootUnload, ExecNotify, ExecEffect, ExecDisposer;
    hide ExecDisposing;
    if fr.Provide? && fr.pv.PvRegister? {
    } else {
      hide Exec;
      SameBindings(c, fr, ch);
    }
  }

  lemma SnapStep(s: Sys, t: nat, ch: Choice, s': Sys, f: nat)
    requires SysWf(s) && HoldersOk(s) && Steps(s, t, ch, s') && SnapOk(s, f)
    ensures SnapOk(s', f)
  {
    hide Exec, FrameWf, SnapMoves, CoreWf, HoldersOk, Grows;
    var c, fr, c' := s.core, s.pool[t], s'.core;
    ExecWf(c, fr, ch);
    if f !in c.fibers {
      if f in c'.fibers { Newborn(c, fr, ch, f); }
    } else {
      Moves(c, fr, ch, f);
      CoreFacts(c, f);
      hide CoreWf, FrameWf, Exec, SnapMoves, EntryOk;
      assert f in c'.fibers by { MovesKnown(c, c', fr, f); }
      if c'.fibers[f].snapshot.Some? {
        forall n | n in c'.fibers[f].snapshot.value
          ensures EntryOk(c', s'.pool, f, c'.fibers[f], n, c'.fibers[f].snapshot.value[n])
        {
          SnapEntryStep(s, t, ch, s', f, n);
        }
      }
    }
  }

  lemma MovesKnown(c: Core, c': Core, fr: Frame, f: nat)
    ensures SnapMoves(c, c', fr, f) ==> f in c'.fibers
  {}

  lemma SnapEntryStep(s: Sys, t: nat, ch: Choice, s': Sys, f: nat, n: Name)
    requires SysWf(s) && HoldersOk(s) && Steps(s, t, ch, s') && SnapOk(s, f) && Grows(s.core, s'.core)
    requires SnapMoves(s.core, s'.core, s.pool[t], f) && FiberWf(s.core, f, s.core.fibers[f])
    requires s'.core.fibers[f].snapshot.Some? && n in s'.core.fibers[f].snapshot.value
    ensures EntryOk(s'.core, s'.pool, f, s'.core.fibers[f], n, s'.core.fibers[f].snapshot.value[n])
  {
    hide CoreWf, FrameWf, Exec, Grows, HoldersOk, HolderKnows;
    var c, fr, c' := s.core, s.pool[t], s'.core;
    var was, fib := c.fibers[f], c'.fibers[f];
    var e := fib.snapshot.value[n];
    if Commits(c, fr, f, fib) {
      assert e in c.store && KeysOf(c, fr.pc.got)[n] == KeyOf(c, e);
      GrowsStore(c, c', e);
    } else if Provides(fr, f, was, fib) && n == fr.name {
      SlotHeld(s, t);
      GrowsStore(c, c', e);
      SlotStep(s, t, ch, s', e);
    } else {
      assert n in was.snapshot.value && c.store[was.snapshot.value[n]].name == n;
      assert was.snapshot.Some? && n in was.snapshot.value && was.snapshot.value[n] == e;
      assert EntryOk(c, s.pool, f, was, n, e);
      GrowsStore(c, c', e);
      if OwnHeld(c, s.pool, f, e) {
        OwnHeldStep(s, t, ch, s', f, e);
      }
    }
  }

  lemma SlotHeld(s: Sys, t: nat)
    requires HoldersOk(s) && t in s.pool && s.pool[t].Provide? && s.pool[t].pv.PvSnapshot?
    requires FrameWf(s.core, s.pool[t])
    ensures AtSlot(s.core, s.pool[t].pv.e) && s.core.store[s.pool[t].pv.e].provider == s.pool[t].f
  {
    hide PcWf;
    assert HolderKnows(s.core, s.pool[t]);
  }

  lemma SnapCall(s: Sys, fr: Frame, s': Sys, f: nat)
    ensures SysWf(s) && Calls(s, fr, s') && SnapOk(s, f) ==> SnapOk(s', f)
  {
    hide CoreWf, FrameWf, EntryPoint;
    if SysWf(s) && Calls(s, fr, s') && SnapOk(s, f) {
      assert s.next !in s.pool;
      if f in s.core.fibers && s.core.fibers[f].snapshot.Some? {
        var held := s.core.fibers[f].snapshot.value;
        forall n | n in held ensures EntryOk(s'.core, s'.pool, f, s'.core.fibers[f], n, held[n]) {
          assert EntryOk(s.core, s.pool, f, s.core.fibers[f], n, held[n]);
          if Withdrawing(s.pool, held[n]) {
            var k :| k in s.pool && s.pool[k] == Disposer(held[n], UnSnapshot);
            assert k in s'.pool && s'.pool[k] == Disposer(held[n], UnSnapshot);
          }
        }
      }
    }
  }

  // ----- context.go: resolveService -----

  /** The binding a fiber's snapshot shows for `name` in scope `at`. */
  function SnapshotHit(c: Core, f: nat, name: Name, at: Label): Option<nat> {
    if f in c.fibers && c.fibers[f].snapshot.Some? && name in c.fibers[f].snapshot.value then
      var e := c.fibers[f].snapshot.value[name];
      if e in c.store && c.store[e].name == name && c.store[e].at == at && c.store[e].available then Some(e) else None
    else None
  }

  /** `Context.resolveService` on a context of fiber `f` whose label for `name` is `at`: the snapshots of
      the ancestor chain as long as the scope does not change, then the live registry. */
  function ResolveService(c: Core, f: nat, name: Name, at: Label): Option<nat>
    decreases f
  {
    var hit := SnapshotHit(c, f, name, at);
    if hit.Some? then hit
    else if f in c.fibers && c.fibers[f].fixed.parent.Some? && c.fibers[f].fixed.parent.value < f
         && c.fibers[f].fixed.parent.value in c.fibers
         && LabelOf(c.fibers[c.fibers[f].fixed.parent.value], name) == at
    then ResolveService(c, c.fibers[f].fixed.parent.value, name, at)
    else Lookup(c, at, name)
  }

  /** In every state, a service read never comes from another name or another isolation scope. */
  lemma {:induction false} ResolvesNoOther(c: Core, f: nat, name: Name, at: Label)
    requires CoreWf(c) && ResolveService(c, f, name, at).Some?
    ensures var e := ResolveService(c, f, name, at).value;
      e in c.store && c.store[e].name == name && c.store[e].at == at && c.store[e].available
    decreases f
  {
    if SnapshotHit(c, f, name, at).Some? {
    } else if f in c.fibers && c.fibers[f].fixed.parent.Some? && c.fibers[f].fixed.parent.value < f
         && c.fibers[f].fixed.parent.value in c.fibers
         && LabelOf(c.fibers[c.fibers[f].fixed.parent.value], name) == at {
      ResolvesNoOther(c, c.fibers[f].fixed.parent.value, name, at);
    } else {
      assert SlotWf(c, at, c.bindings[at]);
    }
  }

  /** Every binding a snapshot shows is the live registration of its scope. */
  predicate SnapshotsLive(c: Core) {
    forall f, n :: f in c.fibers && c.fibers[f].snapshot.Some? && n in c.fibers[f].snapshot.value ==>
      SnapshotLive(c, f, n)
  }

  predicate SnapshotLive(c: Core, f: nat, n: Name)
    requires f in c.fibers && c.fibers[f].snapshot.Some? && n in c.fibers[f].snapshot.value
  {
    var e := c.fibers[f].snapshot.value[n];
    e in c.store && AtSlot(c, e) && IsActive(c, c.store[e].provider)
  }

  lemma {:induction false} ResolvesLive(c: Core, f: nat, name: Name, at: Label)
    requires CoreWf(c) && SnapshotsLive(c)
    ensures ResolveService(c, f, name, at) == Lookup(c, at, name)
    decreases f
  {
    hide CoreWf;
    if SnapshotHit(c, f, name, at).Some? {
      assert SnapshotLive(c, f, name);
    } else if f in c.fibers && c.fibers[f].fixed.parent.Some? && c.fibers[f].fixed.parent.value < f
         && c.fibers[f].fixed.parent.value in c.fibers
         && LabelOf(c.fibers[c.fibers[f].fixed.parent.value], name) == at {
      ResolvesLive(c, c.fibers[f].fixed.parent.value, name, at);
    }
  }
}
