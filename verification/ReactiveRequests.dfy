/** No request is lost: every refresh, Restart, Update and Dispose is followed by a pass that starts after
    it, and a disposed fiber ends in its final state. */
module ReactiveRequests {
  import opened Options
  import opened Reactive
  import opened ReactiveWf
  import opened ReactiveDriver
  import opened ReactiveQuiescence
  import opened ReactiveLifecycle

  predicate AsksRefresh(fr: Frame, f: nat) {
    fr == Refresh(f)
  }

  /** A Dispose that marked the fiber and has not refreshed it yet. */
  predicate AsksDispose(fr: Frame, f: nat) {
    fr == Disposing(f, DsRemove) || fr == Disposing(f, DsRefresh) || fr == Refresh(f)
  }

  ghost predicate RefreshPending(pool: map<nat, Frame>, f: nat) {
    exists t :: t in pool && AsksRefresh(pool[t], f)
  }

  ghost predicate DisposePending(pool: map<nat, Frame>, f: nat) {
    exists t :: t in pool && AsksDispose(pool[t], f)
  }

  /** The current pass has seen that the fiber is disposed, or is about to look. */
  predicate Ending(pc: Pc) {
    pc == PassStart || pc == SyncTop || (pc.Unload? && pc.caller == BySync && !pc.u.UPending?)
  }

  /** What a pass in progress owes. `asked` says that a refresh of this fiber is waiting to run. */
  predicate PassKnows(fib: Fiber, pc: Pc, asked: bool) {
    && fib.drive.served <= fib.drive.requests
    && (pc != PassStart ==> fib.drive.served == fib.drive.requests || fib.drive.dirty)
    && (if pc == PassStart then fib.drive.passes <= fib.drive.marks
        else fib.drive.passes + (if fib.drive.dirty then 1 else 0) <= fib.drive.marks + 1)
    && (fib.drive.forceReload && !fib.disposed ==> fib.drive.dirty || pc == PassStart || pc == SyncTop || asked)
    && (fib.disposed && !fib.drive.dirty && fib.life.state != Disposed ==> Ending(pc))
  }

  /** What an idle fiber may still be owed: only what a waiting activation will ask for. */
  predicate IdleKnows(fib: Fiber, asked: bool, disposing: bool) {
    && fib.drive.served <= fib.drive.requests
    && (fib.drive.served == fib.drive.requests || fib.drive.dirty)
    && (fib.drive.dirty ==> disposing)
    && (fib.drive.forceReload && !fib.disposed ==> asked)
    && (fib.disposed && !fib.drive.dirty ==> fib.life.state == Disposed)
  }

  ghost predicate RequestsOk(s: Sys, f: nat) {
    f in s.core.fibers && f != 0 ==>
      && (!s.core.fibers[f].drive.busy ==>
          IdleKnows(s.core.fibers[f], RefreshPending(s.pool, f), DisposePending(s.pool, f)))
      && (forall t :: t in s.pool && Owns(s.pool[t], f) ==>
          PassKnows(s.core.fibers[f], s.pool[t].pc, RefreshPending(s.pool, f)))
  }

  // ----- the driver's own steps -----

  lemma PassKnowsNext(c: Core, fib: Fiber, pc: Pc, ch: Choice, asked: bool)
    ensures PcWf(c, fib, pc) && !pc.Unload? && !fib.fixed.root && PassKnows(fib, pc, asked) && PcKnows(fib, pc) ==>
      PassGoesOn(c, fib, pc, ch, asked)
  {
    hide PassKnows, PcKnows, PassGoesOn, PcWf;
    if PcWf(c, fib, pc) && !pc.Unload? && !fib.fixed.root && PassKnows(fib, pc, asked) && PcKnows(fib, pc) {
      if pc.PassStart? || pc.SyncTop? || pc.PassEnd? { PassOpens(c, fib, pc, ch, asked); }
      else if pc.Resolve? || pc.ResolveState? { PassLooks(c, fib, pc, ch, asked); }
      else if Decides(pc) { PassDecides(c, fib, pc, ch, asked); }
      else if Concludes(pc) { PassConcludes(c, fib, pc, ch, asked); }
      else { PassLoads(c, fib, pc, ch, asked); }
    }
  }

  /** What a pass owes after its section at `pc`. */
  predicate PassGoesOn(c: Core, fib: Fiber, pc: Pc, ch: Choice, asked: bool) {
    var fib', next := DriverFiber(c, fib, pc, ch), DriverNext(c, fib, pc, ch);
    if next.Some? then PassKnows(fib', next.value, asked) else !fib'.drive.dirty && IdleKnows(fib', asked, false)
  }

  lemma PassOpens(c: Core, fib: Fiber, pc: Pc, ch: Choice, asked: bool)
    requires PcWf(c, fib, pc) && (pc.PassStart? || pc.SyncTop? || pc.PassEnd?) && !fib.fixed.root
    requires PassKnows(fib, pc, asked) && PcKnows(fib, pc)
    ensures PassGoesOn(c, fib, pc, ch, asked)
  {
    hide PcWf, Standing, PcKnows;
    match pc
    case PassStart => case SyncTop => case PassEnd =>
  }

  lemma PassLooks(c: Core, fib: Fiber, pc: Pc, ch: Choice, asked: bool)
    ensures (PcWf(c, fib, pc) && (pc.Resolve? || pc.ResolveState?) && PassKnows(fib, pc, asked)) ==>
      PassGoesOn(c, fib, pc, ch, asked)
  {
    hide PcWf, Registered, Live, LabelOf;
  }

  lemma PassDecides(c: Core, fib: Fiber, pc: Pc, ch: Choice, asked: bool)
    requires PcWf(c, fib, pc) && (pc.DecideMiss? || pc.DecideHit? || pc.ApplyUnload? || pc.ApplyLoad?)
    requires PassKnows(fib, pc, asked) && PcKnows(fib, pc)
    ensures PassGoesOn(c, fib, pc, ch, asked)
  {
    hide PcWf, KeysOf, Standing, PcKnows;
    match pc
    case DecideMiss(_) => case DecideHit(_) => case ApplyUnload(_) => case ApplyLoad(_) =>
  }

  lemma PassLoads(c: Core, fib: Fiber, pc: Pc, ch: Choice, asked: bool)
    requires PcWf(c, fib, pc) && !Decides(pc) && !Concludes(pc) && !pc.Unload? && PassKnows(fib, pc, asked)
    requires PcKnows(fib, pc)
    ensures PassGoesOn(c, fib, pc, ch, asked)
  {
    hide PcWf, GotWf, KeysOf, Registered, Live, LabelOf, Standing, PcKnows;
    match pc
    case LoadClaim(_) => case LoadState(_) => case LoadCheck(_, _) => case GiveBack => case GiveBackState =>
    case GiveBackRefresh =>
    case LoadCommit(_) =>
  }

  lemma PassConcludes(c: Core, fib: Fiber, pc: Pc, ch: Choice, asked: bool)
    ensures PcWf(c, fib, pc) && Concludes(pc) && PassKnows(fib, pc, asked) && PcKnows(fib, pc) ==>
      PassGoesOn(c, fib, pc, ch, asked)
  {
    hide PcWf, GotWf, PcKnows, PassGoesOn;
    if PcWf(c, fib, pc) && Concludes(pc) && PassKnows(fib, pc, asked) && PcKnows(fib, pc) {
      if pc.ReloadMid? || pc.FailMid? || pc.FailState? {
        PassUnwinds(c, fib, pc, ch, asked);
      } else {
        PassRuns(c, fib, pc, ch, asked);
      }
    }
  }

  lemma PassUnwinds(c: Core, fib: Fiber, pc: Pc, ch: Choice, asked: bool)
    requires PcWf(c, fib, pc) && (pc.ReloadMid? || pc.FailMid? || pc.FailState?) && PassKnows(fib, pc, asked)
    requires PcKnows(fib, pc)
    ensures PassGoesOn(c, fib, pc, ch, asked)
  {
    hide PcWf, GotWf, KeysOf, Registered, Live, LabelOf, Standing, PcKnows;
    match pc
    case ReloadMid => case FailMid => case FailState =>
  }

  lemma PassRuns(c: Core, fib: Fiber, pc: Pc, ch: Choice, asked: bool)
    requires PcWf(c, fib, pc) && (pc.Config? || pc.Body? || pc.BodyDone? || pc.BodyActive?)
    requires PassKnows(fib, pc, asked) && PcKnows(fib, pc)
    ensures PassGoesOn(c, fib, pc, ch, asked)
  {
    hide PcWf, GotWf, KeysOf, Registered, Live, LabelOf, Standing, PcKnows;
    match pc
    case Config => case Body => case BodyDone => case BodyActive =>
  }

  lemma PassKnowsUnload(fib: Fiber, u: UPc, caller: UCaller, asked: bool)
    ensures PassKnows(fib, Unload(u, caller), asked) && UnloadKnows(fib, u, caller) && !(u.UDrain? && u.todo != {}) ==>
      PassKnows(UnloadFiber(fib, u),
                      if UnloadNext(fib, u).Some? then Unload(UnloadNext(fib, u).value, caller)
                          else AfterUnload(caller), asked)
  {
    match u
    case UClaim => case UState => case UClear => case UDrain(_) => case UReset => case UPending => case UFinal =>
  }

  // ----- what other activations ask -----

  /** Exactly what another activation's step writes to the driver's bookkeeping. */
  function AskedDrive(fib: Fiber, fr: Frame, f: nat): Drive {
    if fr == Refresh(f) then (if fib.drive.busy then Marked(fib.drive) else Taken(fib.drive))
    else if fr == Disposing(f, DsMark) && !fib.disposed then Marked(fib.drive)
    else if fr.Restarting? && fr.f == f && fr.rs == RsMark then fib.drive.(forceReload := true)
    else fib.drive
  }

  predicate AskedStep(c: Core, c': Core, fr: Frame, f: nat) {
    && f in c.fibers && f in c'.fibers
    && c'.fibers[f].drive == AskedDrive(c.fibers[f], fr, f)
    && c'.fibers[f].disposed == (c.fibers[f].disposed || fr == Disposing(f, DsMark))
  }

  lemma AskedSame(c: Core, c': Core, fr: Frame, f: nat)
    requires f in c.fibers && f in c'.fibers
    requires c'.fibers[f].drive == c.fibers[f].drive && c'.fibers[f].disposed == c.fibers[f].disposed
    requires fr != Refresh(f) && !(fr == Disposing(f, DsMark) && !c.fibers[f].disposed)
    requires !(fr.Restarting? && fr.f == f && fr.rs == RsMark)
    ensures AskedStep(c, c', fr, f)
  {}

  lemma AskedDisposing(c: Core, g: nat, ds: DisposePc, f: nat)
    ensures CoreWf(c) && g in c.fibers && f in c.fibers ==>
      AskedStep(c, ExecDisposing(c, g, ds).core, Disposing(g, ds), f)
  {
    hide CoreWf;
    CoreFacts(c, g);
    match ds
    case DsMark => case DsRemove => case DsRefresh =>
  }

  lemma AskedOther(c: Core, fr: Frame, ch: Choice, f: nat)
    ensures Executes(c, fr, ch) && f in c.fibers && f != 0 && !Owns(fr, f) ==>
      AskedStep(c, Exec(c, fr, ch).core, fr, f)
  {
    hide CoreWf, PcWf, AskedStep, ExecDriver, ExecUnload, ExecProvide, ExecDisposer, ExecEffect, ExecLoad;
    hide ExecDisposing, ExecRestarting, LoadedFiber, ExecRefresh;
    if Executes(c, fr, ch) && f in c.fibers && f != 0 && !Owns(fr, f) {
      match fr
      case Refresh(g) => AskedRefresh(c, g, f);
      case Driver(g, pc) => DriverWrites(c, g, pc, ch); AskedSame(c, Exec(c, fr, ch).core, fr, f);
      case RootUnload(g, u) => UnloadWrites(c, g, u, ch); AskedSame(c, Exec(c, fr, ch).core, fr, f);
      case NotifyProvided(_) => AskedSame(c, c, fr, f);
      case NotifyNames(_, _) => AskedSame(c, c, fr, f);
      case Notify(_, _) => AskedSame(c, c, fr, f);
      case Wake(_) => AskedSame(c, c, fr, f);
      case Provide(_, _, _, _, _, _) => ProvideLight(c, fr, ch); AskedSame(c, Exec(c, fr, ch).core, fr, f);
      case Effect(_, _, _) => EffectLight(c, fr, ch); AskedSame(c, Exec(c, fr, ch).core, fr, f);
      case Disposer(_, _) => DisposerLight(c, fr, ch); AskedSame(c, Exec(c, fr, ch).core, fr, f);
      case Release(_) => DisposerLight(c, fr, ch); AskedSame(c, Exec(c, fr, ch).core, fr, f);
      case Disposing(g, ds) => AskedDisposing(c, g, ds, f);
      case Restarting(g, update, rs) => AskedRestarting(c, g, update, rs, f);
      case Load(_, _, _, _, _, _) => ForeignLoad(c, fr, ch, f); LoadedForeign(c, fr, f);
          AskedSame(c, Exec(c, fr, ch).core, fr, f);
    }
  }

  lemma AskedRefresh(c: Core, g: nat, f: nat)
    ensures g in c.fibers && f in c.fibers ==> AskedStep(c, ExecRefresh(c, g).core, Refresh(g), f)
  {}

  lemma AskedRestarting(c: Core, g: nat, update: bool, rs: RestartPc, f: nat)
    ensures g in c.fibers && f in c.fibers ==>
      AskedStep(c, ExecRestarting(c, g, update, rs).core, Restarting(g, update, rs), f)
  {
    match rs
    case RsGate => case RsMark =>
  }

  /** Requests that wait keep waiting, and a request's own frame moves on towards its refresh. */
  predicate AskingMoves(fr: Frame, cont: Option<Frame>, before: Fiber, f: nat) {
    && (fr == Disposing(f, DsMark) && !before.disposed ==> cont == Some(Disposing(f, DsRemove)))
    && (fr == Disposing(f, DsRemove) ==> cont == Some(Disposing(f, DsRefresh)))
    && (fr == Disposing(f, DsRefresh) ==> cont == Some(Refresh(f)))
    && (fr.Restarting? && fr.f == f && fr.rs == RsMark ==> cont == Some(Refresh(f)))
  }

  lemma Asking(c: Core, fr: Frame, ch: Choice, f: nat)
    ensures Executes(c, fr, ch) && f in c.fibers && f != 0 ==> AskingMoves(fr, Exec(c, fr, ch).cont, c.fibers[f], f)
  {
    hide CoreWf, PcWf, ExecDriver, ExecUnload, ExecProvide, ExecDisposer, ExecEffect, ExecLoad, FrameWf;
    hide ExecNotify;
    CoreFacts(c, f);
  }

  lemma PendingKept(s: Sys, t: nat, ch: Choice, s': Sys, f: nat)
    ensures SysWf(s) && Steps(s, t, ch, s') && f in s.core.fibers && f != 0 ==>
      (s.pool[t] != Refresh(f) && RefreshPending(s.pool, f) ==> RefreshPending(s'.pool, f))
      && (s.pool[t] != Refresh(f) && DisposePending(s.pool, f) ==> DisposePending(s'.pool, f))
      && (s.pool[t] == Disposing(f, DsMark) && !s.core.fibers[f].disposed ==> DisposePending(s'.pool, f))
      && (s.pool[t].Restarting? && s.pool[t].f == f && s.pool[t].rs == RsMark ==> RefreshPending(s'.pool, f))
  {
    hide CoreWf, FrameWf, Exec;
    if SysWf(s) && Steps(s, t, ch, s') && f in s.core.fibers && f != 0 {
      Asking(s.core, s.pool[t], ch, f);
      assert s.next !in s.pool;
      var cont := Exec(s.core, s.pool[t], ch).cont;
      if cont.Some? { assert t in s'.pool && s'.pool[t] == cont.value; }
      if RefreshPending(s.pool, f) {
        var k :| k in s.pool && AsksRefresh(s.pool[k], f);
        assert k != t ==> k in s'.pool && AsksRefresh(s'.pool[k], f);
      }
      if DisposePending(s.pool, f) {
        var k :| k in s.pool && AsksDispose(s.pool[k], f);
        assert k != t ==> k in s'.pool && AsksDispose(s'.pool[k], f);
      }
    }
  }

  // ----- the invariant -----

  lemma RequestsOwn(s: Sys, t: nat, ch: Choice, s': Sys, f: nat)
    requires SysWf(s) && SingleOwner(s) && SingleOwner(s') && Steps(s, t, ch, s') && f in s.core.fibers
    requires f != 0
    requires Owns(s.pool[t], f) && LifeOk(s, f) && RequestsOk(s, f)
    ensures RequestsOk(s', f)
  {
    hide CoreWf, Exec, PcKnows, AtRest, Accounted, PcWf, DriverNext, DriverFiber, UnloadFiber, UnloadNext;
    hide PassKnows, UnloadKnows;
    var c, pc := s.core, s.pool[t].pc;
    assert FrameWf(c, s.pool[t]);
    var fib := c.fibers[f];
    CoreFacts(c, f);
    OwnStep(c, f, pc, ch);
    OwnNext(c, f, pc, ch);
    OnlyOwner(s, t, ch, s', f);
    PendingKept(s, t, ch, s', f);
    var asked, asked' := RefreshPending(s.pool, f), RefreshPending(s'.pool, f);
    if pc.Unload? {
      var next := Exec(c, s.pool[t], ch).cont.value.pc;
      if pc.u.UDrain? && pc.u.todo != {} { DrainPass(fib, pc, next, asked); }
      else { UnloadOpen(fib, pc); PassKnowsUnload(fib, pc.u, pc.caller, asked); }
      MoreAsked(s'.core.fibers[f], next, asked, asked');
    } else {
      PassKnowsNext(c, fib, pc, ch, asked);
      var next := DriverNext(c, fib, pc, ch);
      if next.Some? { MoreAsked(s'.core.fibers[f], next.value, asked, asked'); }
    }
  }

  lemma DrainPass(fib: Fiber, pc: Pc, next: Pc, asked: bool)
    ensures
      && PassKnows(fib, pc, asked) && pc.Unload? && pc.u.UDrain? && next.Unload? && next.caller == pc.caller
      && next.u.UDrain?
      ==> PassKnows(fib, next, asked)
  {}

  lemma MoreAsked(fib: Fiber, pc: Pc, asked: bool, asked': bool)
    ensures (PassKnows(fib, pc, asked) && (asked ==> asked')) ==> PassKnows(fib, pc, asked')
  {}

  /** A request recorded on a running driver, or one that takes the idle fiber. */
  lemma AskedKnows(was: Fiber, fib: Fiber, fr: Frame, f: nat, pc: Pc, asked: bool, asked': bool)
    requires Foreign(was, fib) && fib.drive == AskedDrive(was, fr, f)
    requires fib.disposed == (was.disposed || fr == Disposing(f, DsMark))
    requires PassKnows(was, pc, asked) && was.drive.busy
    requires fr != Refresh(f) && asked ==> asked'
    requires fr.Restarting? && fr.f == f && fr.rs == RsMark ==> asked'
    ensures PassKnows(fib, pc, asked')
  {}

  lemma RequestsOther(s: Sys, t: nat, ch: Choice, s': Sys, f: nat)
    requires SysWf(s) && SingleOwner(s) && SingleOwner(s') && Steps(s, t, ch, s') && f in s.core.fibers
    requires f != 0
    requires !Owns(s.pool[t], f) && RequestsOk(s, f) && LifeOk(s, f)
    ensures RequestsOk(s', f)
  {
    hide CoreWf, Exec, PassKnows, PcKnows, AtRest, AskedDrive;
    var c, fr := s.core, s.pool[t];
    assert FrameWf(c, fr);
    ForeignStep(c, fr, ch, f);
    AskedOther(c, fr, ch, f);
    CallKinds(c, fr, ch);
    ContKinds(c, fr, ch);
    PendingKept(s, t, ch, s', f);
    var was, fib := c.fibers[f], s'.core.fibers[f];
    var asked, asked' := RefreshPending(s.pool, f), RefreshPending(s'.pool, f);
    forall k | k in s'.pool && Owns(s'.pool[k], f) ensures PassKnows(fib, s'.pool[k].pc, asked') {
      if k in s.pool && s.pool[k] == s'.pool[k] {
        assert HasOwner(s.pool, f);
        AskedKnows(was, fib, fr, f, s.pool[k].pc, asked, asked');
      } else {
        assert fr == Refresh(f) && !was.drive.busy && s'.pool[k].pc == PassStart;
        TakenKnows(was, fib, f, asked, DisposePending(s.pool, f), asked');
      }
    }
    if !fib.drive.busy {
      AskedIdle(was, fib, fr, f, asked, DisposePending(s.pool, f), asked', DisposePending(s'.pool, f));
    }
  }

  lemma TakenKnows(was: Fiber, fib: Fiber, f: nat, asked: bool, disposing: bool, asked': bool)
    requires Foreign(was, fib) && fib.drive == AskedDrive(was, Refresh(f), f) && fib.disposed == was.disposed
    requires !was.drive.busy
    requires IdleKnows(was, asked, disposing)
    ensures PassKnows(fib, PassStart, asked')
  {}

  lemma AskedIdle(was: Fiber, fib: Fiber, fr: Frame, f: nat, asked: bool, disposing: bool, asked': bool,
      disposing': bool)
    requires Foreign(was, fib) && fib.drive == AskedDrive(was, fr, f)
    requires fib.disposed == (was.disposed || fr == Disposing(f, DsMark))
    requires !fib.drive.busy && IdleKnows(was, asked, disposing)
    requires fr != Refresh(f) && asked ==> asked'
    requires fr != Refresh(f) && disposing ==> disposing'
    requires fr == Disposing(f, DsMark) && !was.disposed ==> disposing'
    requires fr.Restarting? && fr.f == f && fr.rs == RsMark ==> asked'
    ensures IdleKnows(fib, asked', disposing')
  {}

  lemma RequestsStep(s: Sys, t: nat, ch: Choice, s': Sys, f: nat)
    requires SysWf(s) && SingleOwner(s) && SingleOwner(s') && Steps(s, t, ch, s') && f in s'.core.fibers
    requires LifeOk(s, f) && RequestsOk(s, f)
    ensures RequestsOk(s', f)
  {
    hide CoreWf, FrameWf, Exec, LifeOk, PassKnows;
    if f != 0 {
      if f !in s.core.fibers { RequestsNew(s, t, ch, s', f); }
      else if Owns(s.pool[t], f) { RequestsOwn(s, t, ch, s', f); }
      else { RequestsOther(s, t, ch, s', f); }
    }
  }

  lemma RequestsNew(s: Sys, t: nat, ch: Choice, s': Sys, f: nat)
    requires SysWf(s) && SingleOwner(s) && Steps(s, t, ch, s') && SingleOwner(s') && f !in s.core.fibers
    requires f in s'.core.fibers
    ensures RequestsOk(s', f)
  {
    hide CoreWf, FrameWf, Exec, PassKnows;
    Newborn(s.core, s.pool[t], ch, f);
    NoOwners(s', f);
  }

  lemma RequestsCall(s: Sys, fr: Frame, s': Sys, f: nat)
    ensures SysWf(s) && Calls(s, fr, s') && RequestsOk(s, f) ==> RequestsOk(s', f)
  {
    hide CoreWf, FrameWf, PassKnows;
    if SysWf(s) && Calls(s, fr, s') && RequestsOk(s, f) {
      if f in s.core.fibers && f != 0 {
        assert s.next !in s.pool;
        if RefreshPending(s.pool, f) {
          var k :| k in s.pool && AsksRefresh(s.pool[k], f);
          assert k in s'.pool && AsksRefresh(s'.pool[k], f);
        }
        if DisposePending(s.pool, f) {
          var k :| k in s.pool && AsksDispose(s.pool[k], f);
          assert k in s'.pool && AsksDispose(s'.pool[k], f);
        }
        var fib := s.core.fibers[f];
        forall k | k in s'.pool
            && Owns(s'.pool[k], f) ensures PassKnows(fib, s'.pool[k].pc, RefreshPending(s'.pool, f)) {
          assert k in s.pool && s.pool[k] == s'.pool[k];
          MoreAsked(fib, s.pool[k].pc, RefreshPending(s.pool, f), RefreshPending(s'.pool, f));
        }
      }
    }
  }
}
