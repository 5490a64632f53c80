/** The root fiber: it owns no plugin generation, is active from the start, and its disposal runs the
    unload in the disposing call itself. */
module ReactiveRoot {
  import opened Options
  import opened Reactive
  import opened ReactiveWf
  import opened ReactiveDriver
  import opened ReactiveQuiescence
  import opened ReactiveRuntimes

  /** Part of a Dispose call of the root that got past its mark. */
  predicate RootEnding(fr: Frame) {
    (fr.Disposing? && fr.f == 0 && fr.ds != DsMark) || fr.RootUnload?
  }

  /** A root disposal that has yet to reset the snapshot: before its claim, the claim must still succeed. */
  predicate BeforeReset(fr: Frame, live: bool) {
    RootEnding(fr) &&
    if fr.Disposing? then live
    else match fr.u
         case UClaim => live
         case UState => true
         case UClear => true
         case UDrain(_) => true
         case UReset => true
         case UPending => false
         case UFinal => false
  }

  /** The same for the disposable list. */
  predicate BeforeClear(fr: Frame, live: bool) {
    BeforeReset(fr, live) && (fr.RootUnload? ==> fr.u.UClaim? || fr.u.UState? || fr.u.UClear?)
  }

  predicate RootPc(pc: Pc) {
    pc == PassStart || pc == SyncTop || pc == PassEnd
  }

  predicate RootFrame(fr: Frame) {
    && (Owns(fr, 0) ==> RootPc(fr.pc))
    && (fr.RootUnload? ==> fr.u != UPending)
  }

  ghost predicate Resetting(pool: map<nat, Frame>, live: bool) {
    exists t :: t in pool && BeforeReset(pool[t], live)
  }

  ghost predicate Clearing(pool: map<nat, Frame>, live: bool) {
    exists t :: t in pool && BeforeClear(pool[t], live)
  }

  ghost predicate Finishing(pool: map<nat, Frame>) {
    exists t :: t in pool && RootEnding(pool[t])
  }

  predicate RootBefore(root: Fiber, finishing: bool) {
    && (!root.disposed ==> root.life.state == Active && root.life.live && !finishing)
    && (root.disposed && root.life.state != Disposed ==> finishing)
  }

  predicate RootKnows(root: Fiber, resetting: bool, clearing: bool, finishing: bool) {
    && RootBefore(root, finishing)
    && (root.disposed && root.snapshot.Some? ==> resetting)
    && (root.disposed && root.list != {} ==> clearing)
  }

  ghost predicate RootOk(s: Sys) {
    && 0 in s.core.fibers
    && (forall t :: t in s.pool ==> RootFrame(s.pool[t]))
    && RootKnows(s.core.fibers[0], Resetting(s.pool, s.core.fibers[0].life.live),
                 Clearing(s.pool, s.core.fibers[0].life.live), Finishing(s.pool))
  }

  // ----- steps that do not end the root -----

  /** What everything but the root's own disposal leaves of the root. */
  predicate RootSame(a: Fiber, b: Fiber) {
    && b.life == a.life && b.disposed == a.disposed && b.snapshot.Some? == a.snapshot.Some?
    && (a.disposed && a.list == {} ==> b.list == {})
  }

  lemma RootDriver(c: Core, pc: Pc, ch: Choice)
    ensures Fits(c, Driver(0, pc)) && RootPc(pc) ==>
      var out := Exec(c, Driver(0, pc), ch);
      && out.Ran? && 0 in out.core.fibers && RootSame(c.fibers[0], out.core.fibers[0])
      && (out.cont.Some? ==> out.cont.value.Driver? && RootPc(out.cont.value.pc))
      && out.call.None?
  {
    hide CoreWf, PcWf, FiberWf, ExecLoad;
    CoreFacts(c, 0);
  }

  lemma RootOther(c: Core, fr: Frame, ch: Choice)
    ensures Executes(c, fr, ch) && !Drives(fr, 0) && !(fr.Disposing? && fr.f == 0) ==>
      0 in c.fibers && 0 in Exec(c, fr, ch).core.fibers && RootSame(c.fibers[0], Exec(c, fr, ch).core.fibers[0])
  {
    hide ExecLoad, ExecDriver, FrameWf, ExecRootUnload, ExecNotify, ExecProvide, ExecUnwind, ExecDisposer;
    hide ExecEffect;
    if Executes(c, fr, ch) && !Drives(fr, 0) && !(fr.Disposing? && fr.f == 0) {
      assert 0 in c.fibers;
      ForeignStep(c, fr, ch, 0);
      if fr.Load? {
        ForeignLoad(c, fr, ch, 0);
      } else if fr.Disposing? {
        DisposingOther(c, fr.f, fr.ds);
      } else {
        UndisposedOther(c, fr, ch, 0);
      }
      hide CoreWf, FrameWf, Exec;
    }
  }

  lemma DisposingOther(c: Core, f: nat, ds: DisposePc)
    ensures CoreWf(c) && f in c.fibers && f != 0 && 0 in c.fibers ==>
      0 in ExecDisposing(c, f, ds).core.fibers && ExecDisposing(c, f, ds).core.fibers[0] == c.fibers[0]
  {
    hide CoreWf, RemoveFiber;
    if CoreWf(c) && f in c.fibers && f != 0 && 0 in c.fibers {
      CoreFacts(c, f);
      if !c.fibers[f].fixed.root { RemoveKeeps(c, c.fibers[f].fixed.runtime, f); }
      match ds
      case DsMark => case DsRemove => case DsRefresh =>
    }
  }

  // ----- the root's disposal -----

  lemma RootUnloads(c: Core, u: UPc, ch: Choice)
    ensures Executes(c, RootUnload(0, u), ch) ==>
      var out := Exec(c, RootUnload(0, u), ch);
      && 0 in c.fibers && 0 in out.core.fibers
      && (if u.UDrain? && u.todo != {} then
            out.core.fibers[0] == c.fibers[0] && out.cont.Some? && out.cont.value.RootUnload?
                && out.cont.value.u.UDrain?
          else out.core.fibers[0] == UnloadFiber(c.fibers[0], u)
               && out.cont == (if UnloadNext(c.fibers[0], u).Some?
                   then Some(RootUnload(0, UnloadNext(c.fibers[0], u).value)) else None))
      && (out.call.Some? ==> out.call.value.NotifyProvided? || out.call.value.Disposer?)
  {
    hide CoreWf, UnloadFiber, UnloadNext, ExecDriver, FrameWf, ExecLoad, ExecNotify, ExecProvide, ExecEffect;
    hide ExecDisposer;
  }

  lemma RootDisposes(c: Core, ds: DisposePc, ch: Choice)
    ensures Fits(c, Disposing(0, ds)) ==>
      var out := Exec(c, Disposing(0, ds), ch);
      && out.Ran? && 0 in c.fibers && 0 in out.core.fibers && out.call.None?
      && out.core.fibers[0] == (if ds == DsMark && !c.fibers[0].disposed
                                then c.fibers[0].(disposed := true, drive := Marked(c.fibers[0].drive))
                                    else c.fibers[0])
      && out.cont == match ds
                     case DsMark => if c.fibers[0].disposed then None else Some(Disposing(0, DsRemove))
                     case DsRemove => Some(Disposing(0, DsRefresh))
                     case DsRefresh => Some(RootUnload(0, UClaim))
  {
    hide ExecDriver, FrameWf, ExecLoad, ExecRootUnload, ExecNotify, ExecProvide, ExecEffect, ExecDisposer;
    CoreFacts(c, 0);
    hide CoreWf, FiberWf;
  }

  /** One section of the root's unload, as seen by the promises: `others` are the other frames' promises. */
  lemma RootUnloadKnows(root: Fiber, u: UPc, fr': Option<Frame>, was: map<nat, Frame>, now: map<nat, Frame>, t: nat)
    requires t in was && was[t] == RootUnload(0, u) && u != UPending && root.disposed
    requires !(u.UDrain? && u.todo != {})
    requires fr' == (if UnloadNext(root, u).Some? then Some(RootUnload(0, UnloadNext(root, u).value)) else None)
    requires fr'.Some? ==> t in now && now[t] == fr'.value
    requires forall k :: k in was && k != t ==> k in now && now[k] == was[k]
    requires RootKnows(root, Resetting(was, root.life.live), Clearing(was, root.life.live), Finishing(was))
    ensures var root' := UnloadFiber(root, u);
      RootKnows(root', Resetting(now, root'.life.live), Clearing(now, root'.life.live), Finishing(now))
    ensures fr'.Some? ==> RootFrame(fr'.value)
  {
    var root' := UnloadFiber(root, u);
    if fr'.Some? {
      assert BeforeReset(was[t], root.life.live) ==> u == UReset || BeforeReset(now[t], root'.life.live);
      assert BeforeClear(was[t], root.life.live) ==> u == UClear || BeforeClear(now[t], root'.life.live);
      assert RootEnding(now[t]);
    }
    if Resetting(was, root.life.live) && u != UClaim {
      var k :| k in was && BeforeReset(was[k], root.life.live);
      if k != t { assert k in now && BeforeReset(now[k], root'.life.live); }
    }
    if Clearing(was, root.life.live) && u != UClaim {
      var k :| k in was && BeforeClear(was[k], root.life.live);
      if k != t { assert k in now && BeforeClear(now[k], root'.life.live); }
    }
    if Finishing(was) {
      var k :| k in was && RootEnding(was[k]);
      if k != t { assert k in now && RootEnding(now[k]); }
    }
    match u
    case UClaim =>
      if !root.life.live {
        if Resetting(was, root.life.live) {
          var k :| k in was && BeforeReset(was[k], root.life.live);
          assert k in now && BeforeReset(now[k], root'.life.live);
        }
        if Clearing(was, root.life.live) {
          var k :| k in was && BeforeClear(was[k], root.life.live);
          assert k in now && BeforeClear(now[k], root'.life.live);
        }
      }
    case UState => case UClear => case UDrain(_) => case UReset => case UPending => case UFinal =>
  }

  /** Other activations never turn into a root disposal. */
  lemma NotEnding(c: Core, fr: Frame, ch: Choice)
    ensures Executes(c, fr, ch) && RootFrame(fr) && !fr.RootUnload? && !(fr.Disposing? && fr.f == 0) && !Owns(fr, 0) ==>
      var cont := Exec(c, fr, ch).cont; cont.Some? ==> !RootEnding(cont.value) && RootFrame(cont.value)
  {
    hide CoreWf, PcWf, ExecDriver, ExecUnload, ExecProvide, ExecDisposer;
    hide ExecEffect, RemoveFiber, Discard, NewFiber, With, Accepts, PublishNext;
    match fr
    case Refresh(_) =>
    case Driver(f, pc) => ContDriver(c, f, pc, ch);
    case RootUnload(f, u) =>
    case NotifyProvided(_) =>
    case NotifyNames(_, _) =>
    case Notify(_, _) =>
    case Wake(_) =>
    case Provide(_, _, _, _, _, _) => ContProvide(c, fr, ch);
    case Effect(_, _, _) => ContEffect(c, fr, ch);
    case Disposer(_, _) => ContDisposer(c, fr, ch);
    case Release(_) => ContDisposer(c, fr, ch);
    case Disposing(f, ds) => CoreFacts(c, f);
    case Restarting(_, _, _) =>
    case Load(_, _, _, _, _, ld) =>
      match ld {
        case LdGate => case LdClaim => case LdNew(_) => case LdEnter(_, _) =>
        case LdAttach(_, _, _) => case LdInstall(_, _, _) => case LdStart(_, _, _) => case LdDiscard(_, _) =>
      }
  }

  /** The stepping frame passes its promises on, and nobody else's frame changes. */
  lemma PromisesMove(was: map<nat, Frame>, now: map<nat, Frame>, t: nat, next: Option<Frame>, live: bool)
    requires t in was && (next.Some? ==> t in now && now[t] == next.value)
    requires forall k :: k in was && k != t ==> k in now && now[k] == was[k]
    requires BeforeReset(was[t], live) ==> next.Some? && BeforeReset(next.value, live)
    requires BeforeClear(was[t], live) ==> next.Some? && BeforeClear(next.value, live)
    requires RootEnding(was[t]) ==> next.Some? && RootEnding(next.value)
    ensures Resetting(was, live) ==> Resetting(now, live)
    ensures Clearing(was, live) ==> Clearing(now, live)
    ensures Finishing(was) ==> Finishing(now)
  {
    if Resetting(was, live) {
      var k :| k in was && BeforeReset(was[k], live);
      assert k in now && BeforeReset(now[k], live);
    }
    if Clearing(was, live) {
      var k :| k in was && BeforeClear(was[k], live);
      assert k in now && BeforeClear(now[k], live);
    }
    if Finishing(was) {
      var k :| k in was && RootEnding(was[k]);
      assert k in now && RootEnding(now[k]);
    }
  }

  lemma UnloadedRoot(s: Sys, t: nat)
    ensures SysWf(s) && t in s.pool && s.pool[t].RootUnload? ==>
      s.pool[t].f == 0 && FrameWf(s.core, s.pool[t]) && s.next !in s.pool
  {
    hide CoreWf, PcWf;
    if SysWf(s) && t in s.pool && s.pool[t].RootUnload? {
      assert FrameWf(s.core, s.pool[t]);
    }
  }

  lemma DrainPromises(was: map<nat, Frame>, now: map<nat, Frame>, t: nat, next: Option<Frame>, live: bool)
    requires t in was && was[t].RootUnload? && was[t].u.UDrain? && next.Some? && next.value.RootUnload?
    requires next.value.u.UDrain?
    requires t in now && now[t] == next.value
    requires forall k :: k in was && k != t ==> k in now && now[k] == was[k]
    ensures Resetting(was, live) ==> Resetting(now, live)
    ensures Clearing(was, live) ==> Clearing(now, live)
    ensures Finishing(was) ==> Finishing(now)
  {
    hide Resetting, Clearing, Finishing;
    PromisesMove(was, now, t, next, live);
  }

  lemma RootUnloadStep(s: Sys, t: nat, ch: Choice, s': Sys)
    ensures SysWf(s) && RootOk(s) && Steps(s, t, ch, s') && s.pool[t].RootUnload? ==> RootOk(s')
  {
    hide CoreWf, FrameWf, Exec, RootKnows, Resetting;
    hide Clearing, Finishing, UnloadFiber, UnloadNext, BeforeReset, BeforeClear;
    if SysWf(s) && RootOk(s) && Steps(s, t, ch, s') && s.pool[t].RootUnload? {
      var c, fr, out := s.core, s.pool[t], Exec(s.core, s.pool[t], ch);
      UnloadedRoot(s, t);
      RootUnloads(c, fr.u, ch);
      UnloadsDisposed(s, t);
      var root := c.fibers[0];
      if fr.u.UDrain? && fr.u.todo != {} {
        DrainPromises(s.pool, s'.pool, t, out.cont, root.life.live);
        PromisesKnow(root, root, s.pool, s'.pool);
      } else {
        RootUnloadKnows(root, fr.u, out.cont, s.pool, s'.pool, t);
      }
    }
  }

  lemma RootDisposeStep(s: Sys, t: nat, ch: Choice, s': Sys)
    ensures SysWf(s) && RootOk(s) && Steps(s, t, ch, s') && s.pool[t].Disposing? && s.pool[t].f == 0 ==> RootOk(s')
  {
    hide CoreWf, FrameWf, Exec, RootKnows;
    if SysWf(s) && RootOk(s) && Steps(s, t, ch, s') && s.pool[t].Disposing? && s.pool[t].f == 0 {
      var c, fr, out := s.core, s.pool[t], Exec(s.core, s.pool[t], ch);
      assert FrameWf(c, fr) && s.next !in s.pool;
      RootDisposes(c, fr.ds, ch);
      var root := c.fibers[0];
      if fr.ds == DsMark && !root.disposed {
        RootMarked(root, s.pool, s'.pool, t);
      } else {
        PromisesMove(s.pool, s'.pool, t, out.cont, root.life.live);
        if fr.ds != DsMark { UnloadsDisposed(s, t); }
        PromisesKnow(root, root, s.pool, s'.pool);
      }
    }
  }

  lemma RootStep(s: Sys, t: nat, ch: Choice, s': Sys)
    requires SysWf(s) && RootOk(s) && Steps(s, t, ch, s')
    ensures RootOk(s')
  {
    hide SysWf, RootOk, Exec, Executes;
    if s.pool[t].RootUnload? {
      RootUnloadStep(s, t, ch, s');
    } else if s.pool[t].Disposing? && s.pool[t].f == 0 {
      RootDisposeStep(s, t, ch, s');
    } else {
      RootOtherStep(s, t, ch, s');
    }
  }

  lemma RootOtherStep(s: Sys, t: nat, ch: Choice, s': Sys)
    requires SysWf(s) && RootOk(s) && Steps(s, t, ch, s') && !s.pool[t].RootUnload?
    requires !(s.pool[t].Disposing? && s.pool[t].f == 0)
    ensures RootOk(s')
  {
    hide CoreWf, FrameWf, Exec, RootKnows;
    var c, fr, out := s.core, s.pool[t], Exec(s.core, s.pool[t], ch);
    CallKinds(c, fr, ch);
    assert RootFrame(fr) && s.next !in s.pool;
    if Owns(fr, 0) { RootDriver(c, fr.pc, ch); } else { RootOther(c, fr, ch); NotEnding(c, fr, ch); }
    PromisesMove(s.pool, s'.pool, t, out.cont, c.fibers[0].life.live);
    if Finishing(s'.pool) {
      var k :| k in s'.pool && RootEnding(s'.pool[k]);
      assert k in s.pool && RootEnding(s.pool[k]);
    }
    PromisesKnow(c.fibers[0], s'.core.fibers[0], s.pool, s'.pool);
  }

  lemma UnloadsDisposed(s: Sys, t: nat)
    ensures RootOk(s) && t in s.pool && RootEnding(s.pool[t]) ==> s.core.fibers[0].disposed
  {
    if RootOk(s) && t in s.pool && RootEnding(s.pool[t]) {
      assert Finishing(s.pool);
    }
  }

  lemma PromisesKnow(root: Fiber, root': Fiber, was: map<nat, Frame>, now: map<nat, Frame>)
    requires RootSame(root, root')
    requires RootKnows(root, Resetting(was, root.life.live), Clearing(was, root.life.live), Finishing(was))
    requires Resetting(was, root.life.live) ==> Resetting(now, root.life.live)
    requires Clearing(was, root.life.live) ==> Clearing(now, root.life.live)
    requires Finishing(was) ==> Finishing(now)
    requires Finishing(now) ==> Finishing(was) || root.disposed
    ensures RootKnows(root', Resetting(now, root'.life.live), Clearing(now, root'.life.live), Finishing(now))
  {
    if root'.list != {} && root'.disposed && root.list == {} { assert false; }
  }

  lemma RootMarked(root: Fiber, was: map<nat, Frame>, now: map<nat, Frame>, t: nat)
    requires RootKnows(root, Resetting(was, root.life.live), Clearing(was, root.life.live), Finishing(was))
    requires !root.disposed
    requires t in now && now[t] == Disposing(0, DsRemove)
    ensures var root' := root.(disposed := true, drive := Marked(root.drive));
      RootKnows(root', Resetting(now, root'.life.live), Clearing(now, root'.life.live), Finishing(now))
  {
    assert BeforeReset(now[t], true) && BeforeClear(now[t], true) && RootEnding(now[t]);
  }

  lemma RootCall(s: Sys, fr: Frame, s': Sys)
    ensures SysWf(s) && RootOk(s) && Calls(s, fr, s') ==> RootOk(s')
  {
    hide CoreWf, FrameWf, RootKnows;
    if SysWf(s) && RootOk(s) && Calls(s, fr, s') {
      assert s.next !in s.pool && !RootEnding(fr) && RootFrame(fr);
      var live := s.core.fibers[0].life.live;
      if Resetting(s.pool, live) {
        var k :| k in s.pool && BeforeReset(s.pool[k], live);
        assert k in s'.pool && BeforeReset(s'.pool[k], live);
      }
      if Clearing(s.pool, live) {
        var k :| k in s.pool && BeforeClear(s.pool[k], live);
        assert k in s'.pool && BeforeClear(s'.pool[k], live);
      }
      if Finishing(s.pool) {
        var k :| k in s.pool && RootEnding(s.pool[k]);
        assert k in s'.pool && RootEnding(s'.pool[k]);
      }
      if Finishing(s'.pool) {
        var k :| k in s'.pool && RootEnding(s'.pool[k]);
        assert k in s.pool && RootEnding(s.pool[k]);
      }
      PromisesKnow(s.core.fibers[0], s.core.fibers[0], s.pool, s'.pool);
    }
  }

  /** The root at rest: active until it is disposed of, and then in its final state with nothing left. */
  lemma RootAtRest(s: Sys)
    requires RootOk(s) && Quiet(s)
    ensures var root := s.core.fibers[0];
      if root.disposed then root.life.state == Disposed && root.list == {} && root.snapshot.None?
      else root.life.state == Active && root.life.live
  {}
}
