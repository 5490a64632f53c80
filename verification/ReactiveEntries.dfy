/** Effect entries: a body or a teardown of an entry that is under way has one holder, which knows its phase. */
module ReactiveEntries {
  import opened Options
  import opened Reactive
  import opened ReactiveWf
  import opened ReactiveDriver
  import opened ReactiveQuiescence

  // ----- one holder per entry -----

  /** The entry whose body an activation runs, or whose disposer it runs. */
  function Holds(fr: Frame): Option<nat> {
    match fr
    case Provide(_, _, _, _, _, pv) => if pv.PvAlloc? then None else Some(pv.e)
    case Effect(_, _, fx) => if fx.FxEnter? then None else Some(fx.e)
    case Load(_, _, _, _, _, ld) => if ld.LdAttach? || ld.LdInstall? then Some(ld.e) else None
    case Disposer(e, _) => Some(e)
    case _ => None
  }

  predicate AtSlot(c: Core, e: nat) {
    e in c.store && c.store[e].at in c.bindings && c.bindings[c.store[e].at] == e
  }

  /** What an activation knows about the entry it holds. */
  predicate HolderKnows(c: Core, fr: Frame) {
    match fr
    case Provide(_, _, _, _, _, pv) =>
      (match pv
       case PvAlloc => true
       case PvGate(e) => e !in c.entries
       case PvEnter(e) => e !in c.entries
       case PvRegister(e) => e in c.entries && c.entries[e].Running?
       case PvAbort(e) => e in c.entries && c.entries[e].Running?
       case PvSnapshot(e) => e in c.entries && c.entries[e].Running? && AtSlot(c, e)
       case PvNotify(e) => e in c.entries && c.entries[e].Running? && AtSlot(c, e)
       case PvInstall(e) => e in c.entries && c.entries[e].Running?)
    case Effect(_, _, fx) => !fx.FxEnter? ==> fx.e in c.entries && c.entries[fx.e].Running?
    case Load(_, _, _, _, _, ld) => ld.LdAttach? || ld.LdInstall? ==> ld.e in c.entries && c.entries[ld.e].Running?
    case Disposer(e, _) => e in c.entries && c.entries[e] == Releasing
    case _ => true
  }

  predicate HoldApart(a: Frame, b: Frame) {
    Holds(a).Some? ==> Holds(a) != Holds(b)
  }

  ghost predicate HoldersOk(s: Sys) {
    && (forall t :: t in s.pool ==> HolderKnows(s.core, s.pool[t]))
    && (forall t, u :: t in s.pool && u in s.pool && t != u ==> HoldApart(s.pool[t], s.pool[u]))
  }

  /** A step changes the phase and slot of an entry only if it holds the entry, starts to hold it, or
      defers a request on a running body. */
  predicate EntryKept(c: Core, out: Out, fr: Frame, e: nat)
  {
    e in c.entries && Holds(fr) != Some(e) ==>
      && e in out.core.entries
      && (AtSlot(c, e) ==> AtSlot(out.core, e))
      && (c.entries[e].Running? ==> out.core.entries[e].Running?)
      && (c.entries[e] == Releasing ==> out.core.entries[e] == Releasing)
  }

  lemma KeptSame(c: Core, out: Out, fr: Frame, e: nat)
    requires out.Ran? && out.core.entries == c.entries && out.core.bindings == c.bindings
    requires e in c.store ==> e in out.core.store && out.core.store[e] == c.store[e]
    ensures EntryKept(c, out, fr, e)
  {}

  lemma KeptUnload(c: Core, f: nat, u: UPc, ch: Choice, e: nat)
    ensures f in c.fibers && UPcWf(c, u) && e in c.entries ==>
      var out := ExecUnload(c, f, u, ch);
      out.UMoved? ==>
        && out.core.bindings == c.bindings && out.core.store == c.store && e in out.core.entries
        && (c.entries[e].Running? ==> out.core.entries[e].Running?)
        && (c.entries[e] == Releasing ==> out.core.entries[e] == Releasing)
  {
    hide UnloadFiber, UnloadNext;
  }

  lemma KeptDriver(c: Core, f: nat, pc: Pc, ch: Choice, fr: Frame, e: nat)
    ensures f in c.fibers && PcWf(c, c.fibers[f], pc) && ExecDriver(c, f, pc, ch).Ran? ==>
      EntryKept(c, ExecDriver(c, f, pc, ch), fr, e)
  {
    hide UnloadFiber, UnloadNext, DriverFiber, DriverNext, Chooses, ExecUnload, PcWf;
    if f in c.fibers && PcWf(c, c.fibers[f], pc) && ExecDriver(c, f, pc, ch).Ran? {
      if pc.Unload? {
        PcWfUnload(c, c.fibers[f], pc);
        if e in c.entries { KeptUnload(c, f, pc.u, ch, e); }
      }
    }
  }

  /** The entry a Provide works on. */
  lemma ProvideEntry(c: Core, fr: Frame)
    ensures FrameWf(c, fr) && fr.Provide? && !fr.pv.PvAlloc? ==>
      fr.pv.e in c.store && c.store[fr.pv.e].at == fr.at && fr.f in c.fibers
  {}

  lemma KeptProvideStart(c: Core, fr: Frame, ch: Choice, e: nat)
    ensures (Fits(c, fr) && fr.Provide? && (fr.pv.PvAlloc? || fr.pv.PvGate?)) ==>
      EntryKept(c, ExecProvide(c, fr, ch), fr, e)
  {
    hide CoreWf, FrameWf;
    if e in c.store { BindingFacts(c, e); }
  }

  lemma KeptProvideEnter(c: Core, fr: Frame, ch: Choice, e: nat)
    ensures Fits(c, fr) && fr.Provide? && fr.pv.PvEnter? ==> EntryKept(c, ExecProvide(c, fr, ch), fr, e)
  {
    hide CoreWf, Entered, Accepts, Fits;
  }

  lemma KeptProvideRegister(c: Core, fr: Frame, ch: Choice, e: nat)
    ensures Fits(c, fr) && fr.Provide? && fr.pv.PvRegister? ==> EntryKept(c, ExecProvide(c, fr, ch), fr, e)
  {
    hide CoreWf, Fits;
  }

  lemma KeptProvide(c: Core, fr: Frame, ch: Choice, e: nat)
    ensures Fits(c, fr) && fr.Provide? ==> EntryKept(c, ExecProvide(c, fr, ch), fr, e)
  {
    hide CoreWf, Fits;
    if Fits(c, fr) && fr.Provide? {
      match fr.pv
      case PvAlloc => KeptProvideStart(c, fr, ch, e);
      case PvGate(_) => KeptProvideStart(c, fr, ch, e);
      case PvEnter(_) => KeptProvideEnter(c, fr, ch, e);
      case PvRegister(_) => KeptProvideRegister(c, fr, ch, e);
      case PvAbort(_) => case PvSnapshot(_) => case PvNotify(_) => case PvInstall(_) =>
    }
  }

  lemma KeptUnwind(c: Core, fr: Frame, e: nat, f: nat, ch: Choice, k: nat)
    ensures f in c.fibers && ExecUnwind(c, fr, e, f, ch).Ran? && Holds(fr) == Some(e) ==>
      EntryKept(c, ExecUnwind(c, fr, e, f, ch), fr, k)
  {
    hide Holds, Finished, ReleaseChild, EntryKept;
    if f in c.fibers && ExecUnwind(c, fr, e, f, ch).Ran? && Holds(fr) == Some(e) {
      var out := ExecUnwind(c, fr, e, f, ch);
      if Unhandled(c, e) == {} { KeptFinished(c, out, fr, e, f, k); } else { KeptReleased(c, out, fr, ch.entry, k); }
    }
  }

  lemma KeptFinished(c: Core, out: Out, fr: Frame, e: nat, f: nat, k: nat)
    ensures f in c.fibers && out.Ran? && out.core == Finished(c, e, f) && Holds(fr) == Some(e) ==>
      EntryKept(c, out, fr, k)
  {
    hide Holds;
  }

  lemma KeptReleased(c: Core, out: Out, fr: Frame, e: nat, k: nat)
    ensures e in c.entries && out.Ran? && out == ReleaseChild(c, fr, e) ==> EntryKept(c, out, fr, k)
  {
    hide Holds;
  }

  lemma KeptEffect(c: Core, fr: Frame, ch: Choice, e: nat)
    ensures Fits(c, fr) && fr.Effect? && ExecEffect(c, fr, ch).Ran? ==> EntryKept(c, ExecEffect(c, fr, ch), fr, e)
  {
    hide CoreWf, ExecUnwind, Accepts, Entered, PcWf;
    if Fits(c, fr) && fr.Effect? && ExecEffect(c, fr, ch).Ran? {
      if fr.fx.FxAbandon? { KeptUnwind(c, fr, fr.fx.e, fr.f, ch, e); }
      else if fr.fx.FxEnter? && e in c.entries { EntryKeys(c); NextNumber(c); BindingFacts(c, e); }
    }
  }

  lemma KeptDisposer(c: Core, fr: Frame, ch: Choice, e: nat)
    ensures (Fits(c, fr) && (fr.Release? || fr.Disposer?) && ExecDisposer(c, fr, ch).Ran?) ==>
      EntryKept(c, ExecDisposer(c, fr, ch), fr, e)
  {
    hide CoreWf, ExecUnwind, PcWf;
    if (Fits(c, fr) && (fr.Release? || fr.Disposer?) && ExecDisposer(c, fr, ch).Ran?) {
      BindingFacts(c, fr.e);
      if fr.Disposer? {
        match fr.un
        case UnRegister => case UnSnapshot => case UnChild =>
        case UnDone => KeptUnwind(c, fr, fr.e, c.store[fr.e].provider, ch, e);
      }
    }
  }

  lemma KeptDisposing(c: Core, f: nat, ds: DisposePc, fr: Frame, e: nat)
    ensures CoreWf(c) && f in c.fibers ==> EntryKept(c, ExecDisposing(c, f, ds), fr, e)
  {
    hide CoreWf;
    CoreFacts(c, f);
    match ds
    case DsMark => case DsRemove => case DsRefresh =>
  }

  lemma KeptLoad(c: Core, fr: Frame, ch: Choice, e: nat)
    ensures Fits(c, fr) && fr.Load? ==> EntryKept(c, ExecLoad(c, fr, ch), fr, e)
  {
    hide CoreWf, Accepts, Entered, PcWf;
    if Fits(c, fr) && fr.Load? {
      if fr.ld.LdEnter? && e in c.entries { EntryKeys(c); NextNumber(c); BindingFacts(c, e); }
      match fr.ld
      case LdGate => case LdClaim => case LdNew(_) => case LdEnter(_, _) =>
      case LdAttach(_, _, _) => case LdInstall(_, _, _) => case LdStart(_, _, _) => case LdDiscard(_, _) =>
    }
  }

  lemma Kept(c: Core, fr: Frame, ch: Choice, e: nat)
    ensures Executes(c, fr, ch) ==> EntryKept(c, Exec(c, fr, ch), fr, e)
  {
    hide CoreWf, PcWf, EntryKept, ExecDriver, ExecUnload;
    hide ExecProvide, ExecDisposer, ExecEffect, ExecLoad, ExecDisposing;
    if Executes(c, fr, ch) {
      match fr
      case Refresh(_) => KeptSame(c, Exec(c, fr, ch), fr, e);
      case Driver(f, pc) => KeptDriver(c, f, pc, ch, fr, e);
      case RootUnload(f, u) => KeptRoot(c, f, u, ch, e);
      case NotifyProvided(_) => KeptSame(c, Exec(c, fr, ch), fr, e);
      case NotifyNames(_, _) => KeptSame(c, Exec(c, fr, ch), fr, e);
      case Notify(_, _) => KeptSame(c, Exec(c, fr, ch), fr, e);
      case Wake(_) => KeptSame(c, Exec(c, fr, ch), fr, e);
      case Provide(_, _, _, _, _, _) => KeptProvide(c, fr, ch, e);
      case Effect(_, _, _) => KeptEffect(c, fr, ch, e);
      case Disposer(_, _) => KeptDisposer(c, fr, ch, e);
      case Release(_) => KeptDisposer(c, fr, ch, e);
      case Disposing(f, ds) => KeptDisposing(c, f, ds, fr, e);
      case Restarting(_, _, _) => KeptSame(c, Exec(c, fr, ch), fr, e);
      case Load(_, _, _, _, _, _) => KeptLoad(c, fr, ch, e);
    }
  }

  lemma KeptRoot(c: Core, f: nat, u: UPc, ch: Choice, e: nat)
    ensures Executes(c, RootUnload(f, u), ch) ==> EntryKept(c, Exec(c, RootUnload(f, u), ch), RootUnload(f, u), e)
  {
    hide CoreWf, ExecUnload, Executes, ExecDriver, ExecLoad, ExecNotify;
    if e in c.entries { KeptUnload(c, f, u, ch, e); }
  }

  /** What the frames a step leaves hold: its own entry, a fresh one, or one that was ready. */
  predicate HoldsOn(c: Core, c': Core, fr: Frame, now: Frame) {
    HolderKnows(c', now) && (Holds(now).Some? ==> Holds(now) == Holds(fr) || Takes(c, Holds(now).value))
  }

  predicate Takes(c: Core, e: nat) {
    e !in c.store || (e in c.entries && c.entries[e] == Ready)
  }

  predicate OutHolds(c: Core, out: Out, fr: Frame)
  {
    && (out.cont.Some? ==> HoldsOn(c, out.core, fr, out.cont.value))
    && (out.call.Some? ==> HoldsOn(c, out.core, fr, out.call.value))
    && (out.cont.Some? && out.call.Some? && Holds(out.call.value).Some? ==>
        Holds(out.cont.value) != Holds(out.call.value))
  }

  lemma HoldsUnload(c: Core, f: nat, u: UPc, ch: Choice)
    ensures f in c.fibers && UPcWf(c, u) ==>
      var out := ExecUnload(c, f, u, ch);
      out.UMoved? && out.call.Some? && !out.call.value.NotifyProvided? ==>
        && out.call.value.Disposer? && out.call.value.e in c.entries && c.entries[out.call.value.e] == Ready
        && out.call.value.e in out.core.entries && out.core.entries[out.call.value.e] == Releasing
  {
    hide UnloadFiber, UnloadNext;
  }

  lemma HoldsDriver(c: Core, f: nat, pc: Pc, ch: Choice)
    ensures f in c.fibers && PcWf(c, c.fibers[f], pc) && ExecDriver(c, f, pc, ch).Ran? ==>
      OutHolds(c, ExecDriver(c, f, pc, ch), Driver(f, pc))
  {
    hide UnloadFiber, UnloadNext, DriverFiber, DriverNext, Chooses, ExecUnload, PcWf;
    if f in c.fibers && PcWf(c, c.fibers[f], pc) && ExecDriver(c, f, pc, ch).Ran? {
      if pc.Unload? {
        PcWfUnload(c, c.fibers[f], pc);
        HoldsUnload(c, f, pc.u, ch);
      }
    }
  }

  lemma HoldsProvideStart(c: Core, fr: Frame, ch: Choice)
    ensures (Fits(c, fr) && fr.Provide? && (fr.pv.PvAlloc? || fr.pv.PvGate?)) && HolderKnows(c, fr) ==>
      OutHolds(c, ExecProvide(c, fr, ch), fr)
  {
    hide CoreWf, FrameWf;
    if c.bindingSeq + 1 in c.store { BindingFacts(c, c.bindingSeq + 1); }
    EntryKeys(c);
  }

  lemma HoldsProvideEnter(c: Core, fr: Frame, ch: Choice)
    ensures Fits(c, fr) && fr.Provide? && fr.pv.PvEnter? && HolderKnows(c, fr) ==>
      OutHolds(c, ExecProvide(c, fr, ch), fr)
  {
    hide CoreWf, FrameWf;
    ProvideEntry(c, fr);
    EnterWrites(c, fr, ch);
    hide ExecProvide;
  }

  lemma EnterWrites(c: Core, fr: Frame, ch: Choice)
    ensures Fits(c, fr) && fr.Provide? && fr.pv.PvEnter? ==>
      var out, e := ExecProvide(c, fr, ch), fr.pv.e;
      out.call.None?
          && (out.cont.Some? ==>
              out.cont.value == fr.(pv := PvRegister(e)) && out.core.entries == c.entries[e := Running(false)])
  {
    hide CoreWf, FrameWf, Entered, Accepts;
  }

  lemma HoldsProvideRegister(c: Core, fr: Frame, ch: Choice)
    ensures Fits(c, fr) && fr.Provide? && fr.pv.PvRegister? && HolderKnows(c, fr) ==>
      OutHolds(c, ExecProvide(c, fr, ch), fr)
  {
    hide CoreWf, FrameWf, ExecProvide, AtSlot, OutHolds;
    if Fits(c, fr) && fr.Provide? && fr.pv.PvRegister? && HolderKnows(c, fr) {
      RegisterWrites(c, fr, ch);
      var out := ExecProvide(c, fr, ch);
      HoldsSame(c, out, fr, out.cont.value);
    }
  }

  /** A section that only moves its own activation on. */
  lemma HoldsSame(c: Core, out: Out, fr: Frame, now: Frame)
    ensures
      && out.Ran? && out.call.None? && out.cont == Some(now) && Holds(now) == Holds(fr)
      && HolderKnows(out.core, now)
      ==> OutHolds(c, out, fr)
  {}

  lemma RegisterWrites(c: Core, fr: Frame, ch: Choice)
    ensures Fits(c, fr) && fr.Provide? && fr.pv.PvRegister? ==>
      var out, e := ExecProvide(c, fr, ch), fr.pv.e;
      && out.Ran? && out.call.None? && out.core.entries == c.entries
      && (out.cont == Some(fr.(pv := PvAbort(e)))
          || (AtSlot(out.core, e) && out.cont == Some(fr.(pv := PvSnapshot(e)))))
  {
    hide CoreWf, FrameWf;
    ProvideEntry(c, fr);
  }

  lemma HoldsProvideAbort(c: Core, fr: Frame, ch: Choice)
    ensures Fits(c, fr) && fr.Provide? && fr.pv.PvAbort? && HolderKnows(c, fr) ==>
      OutHolds(c, ExecProvide(c, fr, ch), fr)
  {
    hide CoreWf, Fits, HolderKnows;
  }

  lemma HoldsProvideSnapshot(c: Core, fr: Frame, ch: Choice)
    ensures Fits(c, fr) && fr.Provide? && fr.pv.PvSnapshot? && HolderKnows(c, fr) ==>
      OutHolds(c, ExecProvide(c, fr, ch), fr)
  {
    hide CoreWf, Fits;
  }

  lemma HoldsProvideNotify(c: Core, fr: Frame, ch: Choice)
    ensures Fits(c, fr) && fr.Provide? && fr.pv.PvNotify? && HolderKnows(c, fr) ==>
      OutHolds(c, ExecProvide(c, fr, ch), fr)
  {
    hide CoreWf, Fits;
  }

  lemma HoldsProvideInstall(c: Core, fr: Frame, ch: Choice)
    ensures Fits(c, fr) && fr.Provide? && fr.pv.PvInstall? && HolderKnows(c, fr) ==>
      OutHolds(c, ExecProvide(c, fr, ch), fr)
  {
    hide CoreWf, Fits;
  }

  lemma HoldsProvide(c: Core, fr: Frame, ch: Choice)
    ensures Fits(c, fr) && fr.Provide? && HolderKnows(c, fr) ==> OutHolds(c, ExecProvide(c, fr, ch), fr)
  {
    hide CoreWf, FrameWf, HolderKnows, OutHolds, ExecProvide;
    if Fits(c, fr) && fr.Provide? && HolderKnows(c, fr) {
      match fr.pv
      case PvAlloc => HoldsProvideStart(c, fr, ch);
      case PvGate(_) => HoldsProvideStart(c, fr, ch);
      case PvEnter(_) => HoldsProvideEnter(c, fr, ch);
      case PvRegister(_) => HoldsProvideRegister(c, fr, ch);
      case PvAbort(_) => HoldsProvideAbort(c, fr, ch);
      case PvSnapshot(_) => HoldsProvideSnapshot(c, fr, ch);
      case PvNotify(_) => HoldsProvideNotify(c, fr, ch);
      case PvInstall(_) => HoldsProvideInstall(c, fr, ch);
    }
  }

  lemma HoldsUnwind(c: Core, fr: Frame, e: nat, f: nat, ch: Choice)
    ensures
      && f in c.fibers && ExecUnwind(c, fr, e, f, ch).Ran? && Holds(fr) == Some(e) && HolderKnows(c, fr)
      && (e in c.entries && (fr.Effect? || fr.Disposer?))
      ==> OutHolds(c, ExecUnwind(c, fr, e, f, ch), fr)
  {
    hide AtSlot;
  }

  lemma HoldsEffect(c: Core, fr: Frame, ch: Choice)
    ensures Fits(c, fr) && fr.Effect? && ExecEffect(c, fr, ch).Ran? && HolderKnows(c, fr) ==>
      OutHolds(c, ExecEffect(c, fr, ch), fr)
  {
    hide CoreWf, ExecUnwind, Accepts, Entered, PcWf;
    if Fits(c, fr) && fr.Effect? && ExecEffect(c, fr, ch).Ran? && HolderKnows(c, fr) {
      if fr.fx.FxAbandon? { HoldsUnwind(c, fr, fr.fx.e, fr.f, ch); }
      else if fr.fx.FxEnter? { NextNumber(c); }
    }
  }

  lemma HoldsDisposer(c: Core, e: nat, un: DisposerPc, ch: Choice)
    requires Fits(c, Disposer(e, un)) && HolderKnows(c, Disposer(e, un))
    requires ExecDisposer(c, Disposer(e, un), ch).Ran?
    ensures OutHolds(c, ExecDisposer(c, Disposer(e, un), ch), Disposer(e, un))
  {
    hide CoreWf, ExecUnwind, PcWf;
    BindingFacts(c, e);
    match un
    case UnRegister => case UnSnapshot => case UnChild =>
    case UnDone => HoldsUnwind(c, Disposer(e, un), e, c.store[e].provider, ch);
  }

  lemma HoldsRelease(c: Core, e: nat, ch: Choice)
    ensures Fits(c, Release(e)) ==> OutHolds(c, ExecDisposer(c, Release(e), ch), Release(e))
  {
    hide CoreWf, ExecUnwind;
  }

  lemma HoldsLoad(c: Core, fr: Frame, ch: Choice)
    ensures Fits(c, fr) && fr.Load? && HolderKnows(c, fr) ==> OutHolds(c, ExecLoad(c, fr, ch), fr)
  {
    hide CoreWf, Accepts, Entered, Discard, FrameWf;
    if Fits(c, fr) && fr.Load? && HolderKnows(c, fr) {
      if fr.ld.LdEnter? { NextNumber(c); }
      match fr.ld
      case LdGate => case LdClaim => case LdNew(_) => case LdEnter(_, _) =>
      case LdAttach(_, _, _) => case LdInstall(_, _, _) => case LdStart(_, _, _) => case LdDiscard(_, _) =>
    }
  }

  lemma HoldsAfter(c: Core, fr: Frame, ch: Choice)
    ensures Executes(c, fr, ch) && HolderKnows(c, fr) ==> OutHolds(c, Exec(c, fr, ch), fr)
  {
    hide CoreWf, PcWf, ExecDriver, ExecUnload, ExecProvide, ExecDisposer, ExecEffect, ExecLoad;
    if Executes(c, fr, ch) && HolderKnows(c, fr) {
      match fr
      case Refresh(_) =>
      case Driver(f, pc) => HoldsDriver(c, f, pc, ch);
      case RootUnload(f, u) => HoldsUnload(c, f, u, ch);
      case NotifyProvided(_) =>
      case NotifyNames(_, _) =>
      case Notify(_, _) =>
      case Wake(_) =>
      case Provide(_, _, _, _, _, _) => HoldsProvide(c, fr, ch);
      case Effect(_, _, _) => HoldsEffect(c, fr, ch);
      case Disposer(e, un) => HoldsDisposer(c, e, un, ch);
      case Release(e) => HoldsRelease(c, e, ch);
      case Disposing(_, ds) =>
      case Restarting(_, _, rs) =>
      case Load(_, _, _, _, _, ld) => HoldsLoad(c, fr, ch);
    }
  }

  // ----- a number that was handed out becomes an entry only through its holder -----

  predicate NoNewEntry(c: Core, c': Core, fr: Frame, e: nat) {
    e in c.store && e !in c.entries && Holds(fr) != Some(e) ==> e !in c'.entries
  }

  lemma NoNewProvide(c: Core, fr: Frame, ch: Choice, e: nat)
    ensures Fits(c, fr) && fr.Provide? ==> NoNewEntry(c, ExecProvide(c, fr, ch).core, fr, e)
  {
    hide CoreWf, Entered, Accepts, Fits;
    if Fits(c, fr) && fr.Provide? {
      match fr.pv
      case PvAlloc => case PvGate(_) => case PvEnter(_) => case PvRegister(_) =>
      case PvAbort(_) => case PvSnapshot(_) => case PvNotify(_) => case PvInstall(_) =>
    }
  }

  lemma NoNewEffect(c: Core, fr: Frame, ch: Choice, e: nat)
    ensures Fits(c, fr) && fr.Effect? && ExecEffect(c, fr, ch).Ran? ==>
      NoNewEntry(c, ExecEffect(c, fr, ch).core, fr, e)
  {
    hide CoreWf, ExecUnwind, Accepts, Entered, PcWf;
    if Fits(c, fr) && fr.Effect? && ExecEffect(c, fr, ch).Ran? {
      NextNumber(c);
      if fr.fx.FxAbandon? { UnwindLight(c, fr, fr.fx.e, fr.f, ch); }
    }
  }

  lemma NoNewLoad(c: Core, fr: Frame, ch: Choice, e: nat)
    ensures Fits(c, fr) && fr.Load? ==> NoNewEntry(c, ExecLoad(c, fr, ch).core, fr, e)
  {
    hide CoreWf, Accepts, Entered, FrameWf;
    if Fits(c, fr) && fr.Load? {
      NextNumber(c);
      match fr.ld
      case LdGate => case LdClaim => case LdNew(_) => case LdEnter(_, _) =>
      case LdAttach(_, _, _) => case LdInstall(_, _, _) => case LdStart(_, _, _) => case LdDiscard(_, _) =>
    }
  }

  lemma NoNew(c: Core, fr: Frame, ch: Choice, e: nat)
    ensures Executes(c, fr, ch) ==> NoNewEntry(c, Exec(c, fr, ch).core, fr, e)
  {
    hide CoreWf, PcWf, ExecDriver, ExecUnload, ExecProvide, ExecDisposer, ExecEffect, ExecLoad, ExecDisposing;
    match fr
    case Refresh(_) =>
    case Driver(f, pc) => DriverWrites(c, f, pc, ch);
    case RootUnload(f, u) => UnloadWrites(c, f, u, ch);
    case NotifyProvided(_) =>
    case NotifyNames(_, _) =>
    case Notify(_, _) =>
    case Wake(_) =>
    case Provide(_, _, _, _, _, _) => NoNewProvide(c, fr, ch, e);
    case Effect(_, _, _) => NoNewEffect(c, fr, ch, e);
    case Disposer(_, _) => DisposerLight(c, fr, ch);
    case Release(_) => DisposerLight(c, fr, ch);
    case Disposing(f, ds) => DisposingKeeps(c, f, ds);
    case Restarting(_, _, _) =>
    case Load(_, _, _, _, _, _) => NoNewLoad(c, fr, ch, e);
  }

  // ----- the holders invariant -----

  /** A waiting activation that holds another entry than the step's still knows what it knew. */
  lemma HolderWaits(c: Core, out: Out, fr: Frame, w: Frame)
    requires out.Ran? && HolderKnows(c, w) && Holds(fr) != Holds(w)
    requires Holds(w).Some? ==>
      Holds(w).value in c.store && EntryKept(c, out, fr, Holds(w).value) && NoNewEntry(c, out.core, fr, Holds(w).value)
    ensures HolderKnows(out.core, w)
  {
    hide AtSlot;
    match w
    case Refresh(_) => case Driver(_, _) => case RootUnload(_, _) => case NotifyProvided(_) => case NotifyNames(_, _) =>
    case Notify(_, _) => case Wake(_) => case Effect(_, _, _) => case Disposer(_, _) => case Release(_) =>
    case Disposing(_, _) =>
    case Restarting(_, _, _) => case Load(_, _, _, _, _, _) =>
    case Provide(_, _, _, _, _, pv) =>
      match pv {
        case PvAlloc => case PvGate(_) => case PvEnter(_) => case PvRegister(_) =>
        case PvAbort(_) => case PvSnapshot(_) => case PvNotify(_) => case PvInstall(_) =>
      }
  }

  lemma HeldStored(c: Core, w: Frame)
    ensures FrameWf(c, w) && Holds(w).Some? ==> Holds(w).value in c.store
  {}

  lemma HeldBusy(c: Core, w: Frame)
    ensures FrameWf(c, w) && HolderKnows(c, w) && Holds(w).Some? ==> !Takes(c, Holds(w).value)
  {
    hide FrameWf;
    HeldStored(c, w);
    match w
    case Refresh(_) => case Driver(_, _) => case RootUnload(_, _) => case NotifyProvided(_) => case NotifyNames(_, _) =>
    case Notify(_, _) => case Wake(_) => case Effect(_, _, _) => case Disposer(_, _) => case Release(_) =>
    case Disposing(_, _) =>
    case Restarting(_, _, _) => case Load(_, _, _, _, _, _) =>
    case Provide(_, _, _, _, _, pv) =>
      match pv {
        case PvAlloc => case PvGate(_) => case PvEnter(_) => case PvRegister(_) =>
        case PvAbort(_) => case PvSnapshot(_) => case PvNotify(_) => case PvInstall(_) =>
      }
  }

  /** What a step newly holds nobody else held. */
  lemma NewlyHeld(c: Core, fr: Frame, now: Frame, c': Core, w: Frame)
    ensures HoldsOn(c, c', fr, now) && HoldApart(w, fr) && FrameWf(c, w) && HolderKnows(c, w) ==>
      HoldApart(now, w) && HoldApart(w, now)
  {
    hide FrameWf, HolderKnows, Holds, Takes;
    HeldBusy(c, w);
  }

  lemma HoldersStep(s: Sys, t: nat, ch: Choice, s': Sys)
    requires SysWf(s) && HoldersOk(s) && Steps(s, t, ch, s')
    ensures HoldersOk(s')
  {
    hide Exec, FrameWf, CoreWf, HolderKnows;
    var c, fr, out := s.core, s.pool[t], Exec(s.core, s.pool[t], ch);
    HoldsAfter(c, fr, ch);
    assert s.next !in s.pool;
    forall k | k in s'.pool ensures HolderKnows(s'.core, s'.pool[k]) { HolderKnowsStep(s, t, ch, s', k); }
    forall k, l | k in s'.pool && l in s'.pool && k != l ensures HoldApart(s'.pool[k], s'.pool[l]) {
      HoldApartStep(s, t, ch, s', k, l);
    }
  }

  lemma HolderKnowsStep(s: Sys, t: nat, ch: Choice, s': Sys, k: nat)
    ensures SysWf(s) && HoldersOk(s) && Steps(s, t, ch, s') && k in s'.pool ==> HolderKnows(s'.core, s'.pool[k])
  {
    hide CoreWf, FrameWf, Exec, HolderKnows;
    if SysWf(s) && HoldersOk(s) && Steps(s, t, ch, s') && k in s'.pool {
      var c, fr, out := s.core, s.pool[t], Exec(s.core, s.pool[t], ch);
      HoldsAfter(c, fr, ch);
      assert s.next !in s.pool && HolderKnows(c, fr);
      if k in s.pool && k != t {
        var w := s.pool[k];
        assert HolderKnows(c, w) && HoldApart(w, fr);
        if Holds(w).Some? {
          Kept(c, fr, ch, Holds(w).value);
          NoNew(c, fr, ch, Holds(w).value);
          HeldStored(c, w);
          HolderWaits(c, out, fr, w);
        } else {
          HoldsNothing(c, w, out.core);
        }
      }
    }
  }

  lemma HoldsNothing(c: Core, w: Frame, c': Core)
    ensures Holds(w).None? && HolderKnows(c, w) ==> HolderKnows(c', w)
  {
    if Holds(w).None? && HolderKnows(c, w) {
      if w.Provide? { assert w.pv.PvAlloc?; }
      if w.Effect? { assert w.fx.FxEnter?; }
    }
  }

  lemma HoldApartStep(s: Sys, t: nat, ch: Choice, s': Sys, k: nat, l: nat)
    ensures SysWf(s) && HoldersOk(s) && Steps(s, t, ch, s') && k in s'.pool && l in s'.pool && k != l ==>
      HoldApart(s'.pool[k], s'.pool[l])
  {
    hide CoreWf, Exec, FrameWf, HolderKnows;
    if SysWf(s) && HoldersOk(s) && Steps(s, t, ch, s') && k in s'.pool && l in s'.pool && k != l {
      var c, fr, out := s.core, s.pool[t], Exec(s.core, s.pool[t], ch);
      HoldsAfter(c, fr, ch);
      assert s.next !in s.pool;
      if k in s.pool && k != t {
        assert FrameWf(c, s.pool[k]) && HolderKnows(c, s.pool[k]) && HoldApart(s.pool[k], fr);
        if l in s.pool && l != t { assert HoldApart(s.pool[k], s.pool[l]); }
        else { hide FrameWf, HolderKnows, Holds; NewlyHeld(c, fr, s'.pool[l], out.core, s.pool[k]); }
      } else if l in s.pool && l != t {
        assert FrameWf(c, s.pool[l]) && HolderKnows(c, s.pool[l]) && HoldApart(s.pool[l], fr);
        hide FrameWf, HolderKnows, Holds;
        NewlyHeld(c, fr, s'.pool[k], out.core, s.pool[l]);
      }
    }
  }

  lemma HoldersCall(s: Sys, fr: Frame, s': Sys)
    ensures SysWf(s) && HoldersOk(s) && Calls(s, fr, s') ==> HoldersOk(s')
  {
    hide FrameWf, CoreWf;
    if SysWf(s) && HoldersOk(s) && Calls(s, fr, s') {
      assert s.next !in s.pool;
      assert Holds(fr).None? && HolderKnows(s.core, fr);
      hide CoreWf, FrameWf, HolderKnows, Holds;
      forall k, l | k in s'.pool && l in s'.pool && k != l ensures HoldApart(s'.pool[k], s'.pool[l]) {
        if k in s.pool && l in s.pool { assert HoldApart(s.pool[k], s.pool[l]); }
      }
    }
  }
}
