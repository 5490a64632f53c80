/** What a fiber still reaches was made by its standing generation or while none stood, and what is registered
    is not finished. */
module ReactiveOwnership {
  import opened Options
  import opened Reactive
  import opened ReactiveWf
  import opened ReactiveDriver
  import opened ReactiveQuiescence
  import opened ReactiveLifecycle
  import opened ReactiveEntries
  import opened ReactiveEffects

  // ----- roots of effect trees -----

  /** The entry of the fiber's own list under which `e` was made. */
  function RootOf(c: Core, e: nat): nat
    decreases e
  {
    if e in c.store && c.store[e].owner.Some? && c.store[e].owner.value < e then RootOf(c, c.store[e].owner.value)
        else e
  }

  lemma {:induction false} RootKept(c: Core, c': Core, e: nat)
    requires CoreWf(c) && Grows(c, c') && e in c.store
    ensures RootOf(c', e) == RootOf(c, e)
    decreases e
  {
    hide CoreWf, Grows;
    GrowsStore(c, c', e);
    BindingFacts(c, e);
    if c.store[e].owner.Some? { RootKept(c, c', c.store[e].owner.value); }
  }

  lemma {:induction false} RootEntry(c: Core, e: nat)
    requires CoreWf(c) && e in c.entries
    ensures e in c.store && RootOf(c, e) in c.entries && RootOf(c, e) in c.store
    ensures c.store[RootOf(c, e)].owner.None? && c.store[RootOf(c, e)].provider == c.store[e].provider
    decreases e
  {
    hide CoreWf;
    EntryKeys(c);
    BindingFacts(c, e);
    if c.store[e].owner.Some? { RootEntry(c, c.store[e].owner.value); }
  }

  // ----- the generation an entry belongs to -----

  /** The fiber lists the entry, or unwinds it. */
  ghost predicate Reached(s: Sys, f: nat, e: nat) {
    Lists(s.core, f, e) || Draining(s.pool, f, e)
  }

  predicate Recorded(c: Core, f: nat, e: nat) {
    f in c.fibers && e in c.fibers[f].own + c.fibers[f].strays
  }

  ghost predicate Traced(s: Sys, e: nat) {
    e in s.core.entries && e in s.core.store && s.core.store[e].provider != 0
        && Reached(s, s.core.store[e].provider, RootOf(s.core, e)) ==>
      Recorded(s.core, s.core.store[e].provider, e)
  }

  ghost predicate TracedOk(s: Sys) {
    forall e :: e in s.core.entries ==> Traced(s, e)
  }

  predicate Resets(fr: Frame, f: nat) {
    Owns(fr, f) && fr.pc.Unload? && fr.pc.u.UReset?
  }

  /** Records shrink only when a generation has been unwound. */
  lemma RecordKept(c: Core, fr: Frame, ch: Choice, f: nat, e: nat)
    ensures Executes(c, fr, ch) && f in c.fibers && f != 0 && Recorded(c, f, e) && !Resets(fr, f) ==>
      Recorded(Exec(c, fr, ch).core, f, e)
  {
    hide CoreWf, FrameWf, Exec, PcWf, DriverFiber;
    if Executes(c, fr, ch) && f in c.fibers && f != 0 && Recorded(c, f, e) && !Resets(fr, f) {
      if Owns(fr, f) {
        DriverRefers(c, f, fr.pc);
        OwnStep(c, f, fr.pc, ch);
        OwnWrites(c, c.fibers[f], fr.pc, ch);
      } else {
        RootOnly(c, fr);
        ForeignStep(c, fr, ch, f);
      }
    }
  }

  lemma DriverRefers(c: Core, f: nat, pc: Pc)
    ensures FrameWf(c, Driver(f, pc)) ==> f in c.fibers && PcWf(c, c.fibers[f], pc)
  {
    hide PcWf;
  }

  lemma RootOnly(c: Core, fr: Frame)
    ensures FrameWf(c, fr) ==> fr.RootUnload? ==> fr.f == 0
  {
    hide UPcWf, PcWf;
  }

  lemma OwnWrites(c: Core, fib: Fiber, pc: Pc, ch: Choice)
    ensures PcWf(c, fib, pc) ==>
      (!pc.Unload? ==> DriverFiber(c, fib, pc, ch).own == fib.own && DriverFiber(c, fib, pc, ch).strays == fib.strays)
      && (pc.Unload? && !pc.u.UReset? ==> UnloadFiber(fib, pc.u).own == fib.own)
      && (pc.Unload? ==> UnloadFiber(fib, pc.u).strays == fib.strays)
  {
    hide DriverLife, DriverDrive, DriverErr, UnloadLife, PcWf;
  }

  /** A drain that goes on went on before, or has just cleared the list. */
  lemma DrainedBefore(c: Core, fr: Frame, ch: Choice, f: nat, e: nat)
    ensures Executes(c, fr, ch) && DrainsIt(Exec(c, fr, ch).cont, f, e) ==> Drains(fr, f, e) || Lists(c, f, e)
  {
    hide CoreWf, PcWf, ExecDriver, ExecUnload, ExecProvide, ExecEffect, ExecDisposer, ExecLoad, ExecNotify;
    if Executes(c, fr, ch) && DrainsIt(Exec(c, fr, ch).cont, f, e) {
      match fr
      case Refresh(_) =>
      case Driver(g, pc) => DriverDrained(c, g, pc, ch, f, e);
      case RootUnload(_, u) => UnloadDrained(c, 0, u, ch, e);
      case NotifyProvided(_) => NotDrain(c, fr, ch);
      case NotifyNames(_, _) => NotDrain(c, fr, ch);
      case Notify(_, _) => NotDrain(c, fr, ch);
      case Wake(_) => NotDrain(c, fr, ch);
      case Provide(_, _, _, _, _, _) => NotDrain(c, fr, ch);
      case Effect(_, _, _) => NotDrain(c, fr, ch);
      case Disposer(_, _) => NotDrain(c, fr, ch);
      case Release(_) => NotDrain(c, fr, ch);
      case Disposing(_, ds) =>
      case Restarting(_, _, rs) =>
      case Load(_, _, _, _, _, _) => NotDrain(c, fr, ch);
    }
  }

  lemma UnloadDrained(c: Core, f: nat, u: UPc, ch: Choice, e: nat)
    ensures f in c.fibers && UPcWf(c, u) && ExecUnload(c, f, u, ch).UMoved? ==>
      var next := ExecUnload(c, f, u, ch).next;
      next.Some? && next.value.UDrain? && e in next.value.todo ==> (u.UDrain? && e in u.todo) || Lists(c, f, e)
  {
    hide UnloadFiber;
  }

  lemma DriverDrained(c: Core, g: nat, pc: Pc, ch: Choice, f: nat, e: nat)
    requires g in c.fibers && PcWf(c, c.fibers[g], pc) && ExecDriver(c, g, pc, ch).Ran?
    requires DrainsIt(ExecDriver(c, g, pc, ch).cont, f, e)
    ensures Drains(Driver(g, pc), f, e) || Lists(c, f, e)
  {
    hide UnloadFiber, DriverFiber, Chooses, ExecUnload, PcWf;
    if pc.Unload? {
      PcWfUnload(c, c.fibers[g], pc);
      UnloadDrained(c, g, pc.u, ch, e);
    }
  }

  /** Nothing but a driver and the root's unload drains a list. */
  lemma NotDrain(c: Core, fr: Frame, ch: Choice)
    ensures
      && Executes(c, fr, ch) && Exec(c, fr, ch).cont.Some? && !fr.Driver? && !fr.RootUnload? && !fr.Refresh?
      && !fr.Disposing? && !fr.Restarting?
      ==> !Exec(c, fr, ch).cont.value.Driver? && !Exec(c, fr, ch).cont.value.RootUnload?
  {
    hide CoreWf, FrameWf, Accepts, Entered, Finished, Sweep, ExecDriver, ExecRootUnload;
  }

  /** Only what a step puts on a list it has just published. */
  lemma ListedBefore(c: Core, out: Out, fr: Frame, d: Deed, f: nat, e: nat)
    ensures out.Ran? && Did(c, out, fr, d) && f in c.fibers && Lists(out.core, f, e) && e in c.entries ==>
      Lists(c, f, e)
  {
    hide KeepsHold, Accepts, Entered, Holds;
  }

  lemma ReachedBefore(s: Sys, t: nat, ch: Choice, s': Sys, f: nat, e: nat)
    requires SysWf(s) && HoldersOk(s) && Steps(s, t, ch, s') && f in s.core.fibers && e in s.core.entries
    requires Reached(s', f, e)
    ensures Reached(s, f, e)
  {
    hide CoreWf, FrameWf, Exec, HolderKnows, Drains, Did, Lists, DeedOf;
    var c, fr, out := s.core, s.pool[t], Exec(s.core, s.pool[t], ch);
    Does(c, fr, ch);
    if Lists(s'.core, f, e) {
      ListedBefore(c, out, fr, DeedOf(c, fr, ch), f, e);
    } else {
      var k :| k in s'.pool && Drains(s'.pool[k], f, e);
      CallsDrainless(c, fr, ch, f, e);
      if k in s.pool && k != t { assert Drains(s.pool[k], f, e); }
      else { DrainedBefore(c, fr, ch, f, e); }
    }
  }

  lemma CallsDrainless(c: Core, fr: Frame, ch: Choice, f: nat, e: nat)
    ensures Executes(c, fr, ch) ==> !DrainsIt(Exec(c, fr, ch).call, f, e)
  {
    hide CoreWf, FrameWf, Exec;
    CallKinds(c, fr, ch);
  }

  /** When a generation counts as unwound, its fiber reaches nothing. */
  lemma ResetReachesNothing(s: Sys, t: nat, f: nat, e: nat)
    requires SysWf(s) && SingleOwner(s) && LifeOk(s, f) && t in s.pool && Resets(s.pool[t], f) && f in s.core.fibers
    requires f != 0
    ensures !Reached(s, f, e)
  {
    hide CoreWf, PcWf, Accounted;
    assert PcKnows(s.core.fibers[f], s.pool[t].pc);
    forall k | k in s.pool ensures !Drains(s.pool[k], f, e) { assert FrameWf(s.core, s.pool[k]); }
  }

  lemma TracedStep(s: Sys, t: nat, ch: Choice, s': Sys, e: nat)
    requires SysWf(s) && SysWf(s') && SingleOwner(s) && HoldersOk(s) && TracedOk(s) && Steps(s, t, ch, s')
    requires e in s'.core.entries
    requires forall f :: f in s.core.fibers ==> LifeOk(s, f)
    ensures Traced(s', e)
  {
    hide CoreWf, FrameWf, Exec, HolderKnows, Reached, Recorded, LifeOk, SingleOwner, Did, DeedOf, Grows;
    var c, fr, c' := s.core, s.pool[t], s'.core;
    StepWf(s, t, ch, s');
    EntryKeys(c);
    if e in c.entries {
      var f, r := c.store[e].provider, RootOf(c, e);
      GrowsStore(c, c', e);
      RootKept(c, c', e);
      RootEntry(c, e);
      BindingFacts(c, e);
      if f != 0 && Reached(s', f, r) {
        ReachedBefore(s, t, ch, s', f, r);
        if Resets(fr, f) { ResetReachesNothing(s, t, f, r); }
        assert Traced(s, e);
        RecordKept(c, fr, ch, f, e);
      }
    } else {
      Does(c, fr, ch);
      BornRecorded(c, Exec(c, fr, ch), fr, DeedOf(c, fr, ch), e);
    }
  }

  lemma BornRecorded(c: Core, out: Out, fr: Frame, d: Deed, e: nat)
    ensures out.Ran? && Did(c, out, fr, d) && e in out.core.entries && e !in c.entries ==>
      e in out.core.store && Recorded(out.core, out.core.store[e].provider, e)
  {
    hide KeepsHold, Holds, Accepts;
  }

  lemma TracedAfter(s: Sys, t: nat, ch: Choice, s': Sys)
    requires SysWf(s) && SysWf(s') && SingleOwner(s) && HoldersOk(s) && TracedOk(s) && Steps(s, t, ch, s')
    requires forall f :: f in s.core.fibers ==> LifeOk(s, f)
    ensures TracedOk(s')
  {
    hide SysWf, SingleOwner, HoldersOk, LifeOk, Steps, Traced;
    forall e | e in s'.core.entries ensures Traced(s', e) { TracedStep(s, t, ch, s', e); }
  }

  lemma TracedCall(s: Sys, fr: Frame, s': Sys)
    ensures SysWf(s) && TracedOk(s) && Calls(s, fr, s') ==> TracedOk(s')
  {
    hide CoreWf, FrameWf, RootOf, Recorded, Lists;
    if SysWf(s) && TracedOk(s) && Calls(s, fr, s') {
      EntryKeys(s.core);
      forall e | e in s'.core.entries ensures Traced(s', e) {
        assert Traced(s, e);
        if k :| k in s'.pool && Drains(s'.pool[k], s.core.store[e].provider, RootOf(s.core, e)) {
          assert k != s.next && s.pool[k] == s'.pool[k];
        }
      }
    }
  }

  // ----- the registry holds no finished entry -----

  /** What an activation that withdrew, or never made, its registration knows. */
  predicate Withdrawn(c: Core, fr: Frame) {
    match fr
    case Provide(_, _, _, _, _, pv) => pv.PvGate? || pv.PvEnter? || pv.PvRegister? || pv.PvAbort? ==> !AtSlot(c, pv.e)
    case Disposer(e, un) => !un.UnRegister? ==> !AtSlot(c, e)
    case _ => true
  }

  predicate SlotOk(c: Core, at: Label) {
    at in c.bindings ==>
        Unfinished(c, c.bindings[at]) && c.bindings[at] in c.store && c.store[c.bindings[at]].kind == Registration
  }

  ghost predicate SlotsOk(s: Sys) {
    && (forall at :: at in s.core.bindings ==> SlotOk(s.core, at))
    && (forall t :: t in s.pool ==> Withdrawn(s.core, s.pool[t]))
  }

  lemma SlotOkStep(s: Sys, t: nat, ch: Choice, s': Sys, at: Label)
    ensures SysWf(s) && SysWf(s') && HoldersOk(s) && SlotsOk(s) && Steps(s, t, ch, s') && at in s'.core.bindings ==>
      SlotOk(s'.core, at)
  {
    hide CoreWf, FrameWf, Exec, HolderKnows, Withdrawn, SlotOk, Did, DeedOf, Grows;
    if SysWf(s) && SysWf(s') && HoldersOk(s) && SlotsOk(s) && Steps(s, t, ch, s') && at in s'.core.bindings {
      var c, fr, c' := s.core, s.pool[t], s'.core;
      StepWf(s, t, ch, s');
      Does(c, fr, ch);
      if fr.Provide? && fr.pv.PvRegister? && (at !in c.bindings || c'.bindings[at] != c.bindings[at]) {
        RegisterSlot(c, fr, ch, at);
      } else {
        SlotBefore(c, fr, ch, at);
        assert SlotOk(c, at) && Withdrawn(c, fr);
        var d := DeedOf(c, fr, ch);
        if d.Ends? { EndsOff(c, fr, ch, d.e, d.f, at); }
        SlotKept(c, Exec(c, fr, ch), fr, d, at);
      }
    }
  }

  lemma SlotBefore(c: Core, fr: Frame, ch: Choice, at: Label)
    requires Executes(c, fr, ch) && at in Exec(c, fr, ch).core.bindings
    requires fr.Provide? && fr.pv.PvRegister? ==>
      at in c.bindings && Exec(c, fr, ch).core.bindings[at] == c.bindings[at]
    ensures at in c.bindings && Exec(c, fr, ch).core.bindings[at] == c.bindings[at]
  {
    hide CoreWf, Executes, ExecDriver, FrameWf, ExecLoad, ExecRootUnload, ExecNotify, ExecProvide, ExecEffect;
    if fr.Disposer? && fr.un.UnRegister? {
    } else if !(fr.Provide? && fr.pv.PvRegister?) {
      hide Exec;
      SameBindings(c, fr, ch);
    }
  }

  /** A registration enters the registry while its body runs. */
  lemma RegisterSlot(c: Core, fr: Frame, ch: Choice, at: Label)
    requires Fits(c, fr) && fr.Provide? && fr.pv.PvRegister? && HolderKnows(c, fr)
    requires at in Exec(c, fr, ch).core.bindings
    requires (at !in c.bindings || Exec(c, fr, ch).core.bindings[at] != c.bindings[at])
    ensures SlotOk(Exec(c, fr, ch).core, at)
  {
    hide CoreWf, ExecDriver;
  }

  /** What finishes an entry is not at a slot. */
  lemma EndsOff(c: Core, fr: Frame, ch: Choice, e: nat, f: nat, at: Label)
    ensures Fits(c, fr) && Withdrawn(c, fr) && DeedOf(c, fr, ch) == Ends(e, f) && at in c.bindings && SlotOk(c, at) ==>
      c.bindings[at] != e
  {
    hide CoreWf, Accepts, Unhandled, PcWf;
    SlotKnown(c, at);
  }

  lemma SlotKept(c: Core, out: Out, fr: Frame, d: Deed, at: Label)
    requires out.Ran? && Did(c, out, fr, d) && Grows(c, out.core) && at in c.bindings && SlotOk(c, at)
    requires at in out.core.bindings && out.core.bindings[at] == c.bindings[at]
    requires d.Ends? ==> d.e != c.bindings[at]
    ensures SlotOk(out.core, at)
  {
    hide KeepsHold, Holds, Accepts, Entered, Drains;
    match d
    case Nothing => case Enters(_, _, _) => case Ends(_, _) => case Turns(_, _) => case Clears(_) =>
  }

  /** An activation that waits still knows it: only the holder of a registration puts it in its slot. */
  lemma WithdrawnWaits(c: Core, fr: Frame, ch: Choice, w: Frame)
    ensures Executes(c, fr, ch) && FrameWf(c, w) && Withdrawn(c, w) && HoldApart(w, fr) ==>
      Withdrawn(Exec(c, fr, ch).core, w)
  {
    hide CoreWf, FrameWf, Exec, HolderKnows, AtSlot, Grows;
    if Executes(c, fr, ch) && FrameWf(c, w) && Withdrawn(c, w) && HoldApart(w, fr) {
      if Holds(w).Some? {
        HeldStored(c, w);
        ExecWf(c, fr, ch);
        GrowsStore(c, Exec(c, fr, ch).core, Holds(w).value);
        if !AtSlot(c, Holds(w).value) { StaysOff(c, fr, ch, Holds(w).value); }
      }
    }
  }

  lemma StaysOff(c: Core, fr: Frame, ch: Choice, e: nat)
    ensures Executes(c, fr, ch) && e in c.store && !AtSlot(c, e) && Holds(fr) != Some(e) ==>
      !AtSlot(Exec(c, fr, ch).core, e)
  {
    hide CoreWf, FrameWf, Grows, ExecDriver, ExecLoad, ExecRootUnload, ExecNotify, ExecEffect;
    if Executes(c, fr, ch) && e in c.store && !AtSlot(c, e) && Holds(fr) != Some(e) {
      ExecWf(c, fr, ch);
      GrowsStore(c, Exec(c, fr, ch).core, e);
      if !(fr.Disposer? && fr.un.UnRegister?) && !(fr.Provide? && fr.pv.PvRegister?) {
        hide Exec, FrameWf;
        SameBindings(c, fr, ch);
      }
    }
  }

  /** A disposer starts by withdrawing what it can have registered. */
  lemma StartsWithdrawn(c: Core, c': Core, e: nat)
    requires e in c.store && e in c'.store && c'.store[e] == c.store[e]
    requires forall at :: at in c'.bindings ==> SlotOk(c', at)
    ensures Withdrawn(c', Disposer(e, FirstSection(c, e)))
  {
    if AtSlot(c', e) { assert SlotOk(c', c'.store[e].at); }
  }

  lemma WithdrawnOn(c: Core, fr: Frame, ch: Choice)
    requires Executes(c, fr, ch) && Withdrawn(c, fr) && HolderKnows(c, fr)
    requires forall at :: at in Exec(c, fr, ch).core.bindings ==> SlotOk(Exec(c, fr, ch).core, at)
    requires forall at :: at in c.bindings ==> SlotOk(c, at)
    ensures var out := Exec(c, fr, ch); out.cont.Some? ==> Withdrawn(out.core, out.cont.value)
  {
    hide CoreWf, FrameWf, SlotOk, ExecDriver, ExecUnload, ExecLoad, ExecEffect, ExecNotify, ExecDisposing, Exec;
    if fr.Provide? { ProvideWithdrawn(c, fr, ch); }
    else if fr.Disposer? { DisposerWithdrawn(c, fr, ch); }
    else {
      OtherConts(c, fr, ch);
      var out := Exec(c, fr, ch);
      if out.cont.Some? && out.cont.value.Disposer? { StartsWithdrawn(c, out.core, out.cont.value.e); }
    }
  }

  lemma OtherConts(c: Core, fr: Frame, ch: Choice)
    ensures Executes(c, fr, ch) && !fr.Provide? && !fr.Disposer? ==>
      && (var out := Exec(c, fr, ch); out.cont.Some? && out.cont.value.Provide? ==> false)
      && (var out := Exec(c, fr, ch);
         out.cont.Some? && out.cont.value.Disposer? ==>
           out.cont.value.e in c.store && out.core.store == c.store
               && out.cont.value.un == FirstSection(c, out.cont.value.e))
  {
    hide CoreWf, PcWf, Accepts, Entered, Finished, Sweep, Unhandled, UnloadFiber, DriverFiber, DriverNext;
    hide UnloadNext, Chooses, Executes;
  }

  lemma ProvideWithdrawn(c: Core, fr: Frame, ch: Choice)
    ensures Fits(c, fr) && fr.Provide? && Withdrawn(c, fr) ==>
      var out := Exec(c, fr, ch); out.cont.Some? ==> Withdrawn(out.core, out.cont.value)
  {
    hide CoreWf, Accepts;
    if Fits(c, fr) && fr.Provide? && Withdrawn(c, fr) {
      NextNumber(c);
      if fr.pv.PvAlloc? && fr.at in c.bindings { SlotKnown(c, fr.at); }
    }
  }

  lemma DisposerWithdrawn(c: Core, fr: Frame, ch: Choice)
    requires Fits(c, fr) && fr.Disposer? && Exec(c, fr, ch).Ran? && Withdrawn(c, fr)
    requires forall at :: at in c.bindings ==> SlotOk(c, at)
    ensures var out := Exec(c, fr, ch); out.cont.Some? ==> Withdrawn(out.core, out.cont.value)
  {
    hide CoreWf, ExecDriver, ExecLoad, ExecRootUnload;
    BindingFacts(c, fr.e);
    var at := c.store[fr.e].at;
    if at in c.bindings { assert SlotOk(c, at); }
  }

  lemma UnloadFirst(c: Core, f: nat, u: UPc, ch: Choice)
    ensures CoreWf(c) && f in c.fibers && UPcWf(c, u) && ExecUnload(c, f, u, ch).UMoved? ==>
      var call := ExecUnload(c, f, u, ch).call;
      call.Some? && call.value.Disposer? ==> call.value.e in c.store && call.value.un == FirstSection(c, call.value.e)
  {
    hide CoreWf, UnloadFiber, UnloadNext;
    EntryKeys(c);
  }

  lemma DriverFirst(c: Core, f: nat, pc: Pc, ch: Choice)
    ensures CoreWf(c) && f in c.fibers && PcWf(c, c.fibers[f], pc) && ExecDriver(c, f, pc, ch).Ran? ==>
      var call := ExecDriver(c, f, pc, ch).call;
      call.Some? && call.value.Disposer? ==> call.value.e in c.store && call.value.un == FirstSection(c, call.value.e)
  {
    hide CoreWf, UnloadFiber, DriverFiber, DriverNext, UnloadNext, Chooses, ExecUnload, PcWf;
    if CoreWf(c) && f in c.fibers && PcWf(c, c.fibers[f], pc) && ExecDriver(c, f, pc, ch).Ran? {
      if pc.Unload? {
        PcWfUnload(c, c.fibers[f], pc);
        UnloadFirst(c, f, pc.u, ch);
      }
    }
  }

  /** A new activation that runs a disposer starts at its first section. */
  lemma CallsFirst(c: Core, fr: Frame, ch: Choice)
    ensures Executes(c, fr, ch) && Exec(c, fr, ch).call.Some? && Exec(c, fr, ch).call.value.Disposer? ==>
      var call := Exec(c, fr, ch).call.value; call.e in c.store && call.un == FirstSection(c, call.e)
  {
    hide CoreWf, ExecDriver, ExecUnload, Accepts, Entered, Finished, Sweep, PcWf;
    match fr
    case Driver(f, pc) => DriverFirst(c, f, pc, ch);
    case RootUnload(f, u) => UnloadFirst(c, f, u, ch);
    case Refresh(_) => case NotifyProvided(_) => case NotifyNames(_, _) => case Notify(_, _) => case Wake(_) =>
    case Provide(_, _, _, _, _, _) => case Effect(_, _, _) => case Disposer(_, _) => case Release(_) =>
    case Disposing(_, _) => case Restarting(_, _, _) => case Load(_, _, _, _, _, _) =>
  }

  lemma SlotsStep(s: Sys, t: nat, ch: Choice, s': Sys)
    requires SysWf(s) && SysWf(s') && HoldersOk(s) && SlotsOk(s) && Steps(s, t, ch, s')
    ensures SlotsOk(s')
  {
    hide CoreWf, FrameWf, Exec, HolderKnows, Withdrawn, SlotOk, HoldApart, Grows;
    var c, fr, out := s.core, s.pool[t], Exec(s.core, s.pool[t], ch);
    forall at | at in s'.core.bindings ensures SlotOk(s'.core, at) { SlotOkStep(s, t, ch, s', at); }
    forall k | k in s'.pool ensures Withdrawn(s'.core, s'.pool[k]) {
      if k in s.pool && k != t { WithdrawnWaits(c, fr, ch, s.pool[k]); }
      else if k == s.next && out.call.Some? {
        CallKinds(c, fr, ch);
        if out.call.value.Disposer? {
          CallsFirst(c, fr, ch);
          StepWf(s, t, ch, s');
          GrowsStore(c, s'.core, out.call.value.e);
          StartsWithdrawn(c, s'.core, out.call.value.e);
        } else { OthersWithdrawn(s'.core, out.call.value); }
      } else { WithdrawnOn(c, fr, ch); }
    }
  }

  lemma OthersWithdrawn(c: Core, fr: Frame)
    ensures !fr.Provide? && !fr.Disposer? ==> Withdrawn(c, fr)
  {}

  lemma SlotsCall(s: Sys, fr: Frame, s': Sys)
    ensures SlotsOk(s) && Calls(s, fr, s') ==> SlotsOk(s')
  {
    hide AtSlot, SlotOk;
  }

  // ----- nothing in flight -----

  /** With nothing in flight, an entry that is not finished hangs in the tree of an entry its fiber lists. */
  lemma {:induction false} QuietListed(s: Sys, e: nat)
    requires SysWf(s) && TreeOk(s) && Quiet(s) && Unfinished(s.core, e)
    ensures e in s.core.store && Lists(s.core, s.core.store[e].provider, RootOf(s.core, e))
    decreases e
  {
    hide CoreWf, FrameWf;
    var c := s.core;
    EntryKeys(c);
    BindingFacts(c, e);
    assert Minded(c, s.pool, e) && !Held(s.pool, e);
    if c.store[e].owner.Some? { QuietListed(s, c.store[e].owner.value); }
  }

  /** It was made by the standing generation, or while none stood. */
  lemma QuietRecorded(s: Sys, e: nat)
    ensures SysWf(s) && TreeOk(s) && TracedOk(s) && Quiet(s) && Unfinished(s.core, e) ==>
      e in s.core.store && (s.core.store[e].provider != 0 ==> Recorded(s.core, s.core.store[e].provider, e))
  {
    hide SysWf, TreeOk, Lists, Recorded;
    if SysWf(s) && TreeOk(s) && TracedOk(s) && Quiet(s) && Unfinished(s.core, e) {
      QuietListed(s, e);
      assert Traced(s, e);
    }
  }

  // ----- what is left of a generation that counts as unwound -----

  /** Finished, in the hands of an activation that tears it down or will once its body returns, or part of
      the tree of such an entry. */
  ghost predicate Going(c: Core, pool: map<nat, Frame>, e: nat)
    decreases e
  {
    && e in c.entries && e in c.store
    && (|| c.entries[e] == Done
        || ((c.entries[e] == Running(true) || c.entries[e] == Releasing) && Held(pool, e))
        || (c.store[e].owner.Some? && c.store[e].owner.value < e && Going(c, pool, c.store[e].owner.value)
            && c.entries[c.store[e].owner.value] != Done))
  }

  /** Where a fiber reaches nothing any more, all its effects are gone or going. */
  lemma {:induction false} UnreachedGoing(s: Sys, f: nat, e: nat)
    requires SysWf(s) && TreeOk(s) && e in s.core.entries && e in s.core.store && s.core.store[e].provider == f
    requires forall k :: k in s.core.entries ==> !Reached(s, f, k)
    ensures Going(s.core, s.pool, e)
    decreases e
  {
    hide CoreWf, Held, Draining, Lists, FrameWf;
    BindingFacts(s.core, e);
    assert Minded(s.core, s.pool, e) && !Reached(s, f, e);
    if s.core.store[e].owner.Some? { UnreachedGoing(s, f, s.core.store[e].owner.value); }
  }
}
