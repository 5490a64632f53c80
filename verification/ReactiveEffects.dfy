/** The effect tree of every fiber: what one section does to entries and lists, and who is bound to tear an
    entry down. */
module ReactiveEffects {
  import opened Options
  import opened Reactive
  import opened ReactiveWf
  import opened ReactiveDriver
  import opened ReactiveQuiescence
  import opened ReactiveLifecycle
  import opened ReactiveEntries

  // ----- phases, holders and drains -----

  /** Nobody asked for its teardown yet. */
  predicate Linked(phase: Phase) {
    phase == Ready || phase == Running(false)
  }

  /** An activation is at work on it. */
  predicate InTransit(phase: Phase) {
    phase.Running? || phase == Releasing
  }

  predicate HoldsIt(fr: Option<Frame>, e: nat) {
    fr.Some? && Holds(fr.value) == Some(e)
  }

  /** The activation unwinds the cleared list of `f` and has still to look at `e`. */
  predicate Drains(fr: Frame, f: nat, e: nat) {
    || (fr.Driver? && fr.f == f && fr.pc.Unload? && fr.pc.u.UDrain? && e in fr.pc.u.todo)
    || (fr.RootUnload? && fr.f == f && fr.u.UDrain? && e in fr.u.todo)
  }

  predicate DrainsIt(fr: Option<Frame>, f: nat, e: nat) {
    fr.Some? && Drains(fr.value, f, e)
  }

  // ----- what a step does to entries and lists -----

  /** At most one entry is published, finished or moved to another phase, or one list is cleared. */
  datatype Deed =
    | Nothing | Enters(e: nat, f: nat, owner: Option<nat>) | Ends(e: nat, f: nat) | Turns(e: nat, phase: Phase)
    | Clears(f: nat)

  function EntriesAfter(c: Core, d: Deed): map<nat, Phase> {
    match d
    case Nothing => c.entries
    case Enters(e, _, _) => c.entries[e := Running(false)]
    case Ends(e, _) => c.entries[e := Done]
    case Turns(e, phase) => c.entries[e := phase]
    case Clears(_) => c.entries
  }

  function ListAfter(d: Deed, f: nat, list: set<nat>): set<nat> {
    match d
    case Nothing => list
    case Enters(e, g, owner) => if g == f && owner.None? then list + {e} else list
    case Ends(e, g) => if g == f then list - {e} else list
    case Turns(_, _) => list
    case Clears(g) => if g == f then {} else list
  }

  /** What is known of the entry it concerns. */
  predicate DeedOk(c: Core, out: Out, fr: Frame, d: Deed)
  {
    match d
    case Nothing => true
    case Enters(e, f, owner) =>
      && e !in c.entries && f in c.fibers && Accepts(c, f, owner) && HoldsIt(out.cont, e)
      && e in out.core.store && out.core.store[e].provider == f && out.core.store[e].owner == owner
      && out.core.fibers == c.fibers[f := Entered(c.fibers[f], e, owner)]
    case Ends(e, f) =>
      && e in c.entries && e in c.store && c.store[e].provider == f && c.entries[e] != Done && Holds(fr) == Some(e)
      && (forall k :: k in c.entries && k in c.store && c.store[k].owner == Some(e) ==> !Linked(c.entries[k]))
    case Turns(e, phase) =>
      && e in c.entries && c.entries[e] != Done && phase != Done && (Linked(phase) ==> Linked(c.entries[e]))
      && (InTransit(phase) ==>
          HoldsIt(out.cont, e) || HoldsIt(out.call, e) || (InTransit(c.entries[e]) && Holds(fr) != Some(e)))
    case Clears(f) => Drives(fr, f) && f in c.fibers && forall e :: e in c.fibers[f].list ==> DrainsIt(out.cont, f, e)
  }

  /** What the activation had in its hands it keeps or hands on, as long as there is something to do. */
  ghost predicate KeepsHold(out: Out, fr: Frame)
  {
    && (Holds(fr).Some? && Holds(fr).value in out.core.entries && InTransit(out.core.entries[Holds(fr).value]) ==>
          HoldsIt(out.cont, Holds(fr).value) || HoldsIt(out.call, Holds(fr).value))
    && (forall f, e :: Drains(fr, f, e) && e in out.core.entries && Linked(out.core.entries[e]) ==>
        DrainsIt(out.cont, f, e))
  }

  predicate Drainless(fr: Frame) {
    !(fr.Driver? && fr.pc.Unload? && fr.pc.u.UDrain?) && !(fr.RootUnload? && fr.u.UDrain?)
  }

  ghost predicate Did(c: Core, out: Out, fr: Frame, d: Deed)
  {
    && out.core.entries == EntriesAfter(c, d) && DeedOk(c, out, fr, d) && KeepsHold(out, fr)
    && (forall f :: f in c.fibers ==>
        f in out.core.fibers && out.core.fibers[f].list == ListAfter(d, f, c.fibers[f].list))
  }

  lemma DidNothing(c: Core, out: Out, fr: Frame)
    requires out.Ran? && out.core.entries == c.entries
    requires forall f :: f in c.fibers ==> f in out.core.fibers && out.core.fibers[f].list == c.fibers[f].list
    requires Drainless(fr)
    requires (Holds(fr).Some? && Holds(fr).value in c.entries ==> HoldsIt(out.cont, Holds(fr).value))
    ensures Did(c, out, fr, Nothing)
  {
    hide Holds;
  }

  /** A body returned: its disposer is installed, or starts at once. */
  function Installs(e: nat, phase: Phase): Deed {
    Turns(e, if phase == Running(true) then Releasing else Ready)
  }

  lemma DidInstall(c: Core, out: Out, fr: Frame, e: nat)
    requires out.Ran? && e in c.entries && c.entries[e].Running? && out.core.fibers == c.fibers
    requires out.core.entries == c.entries[e := if c.entries[e] == Running(true) then Releasing else Ready]
    requires Drainless(fr) && Holds(fr) == Some(e)
    requires (c.entries[e] == Running(true) ==> HoldsIt(out.call, e) || HoldsIt(out.cont, e))
    ensures Did(c, out, fr, Installs(e, c.entries[e]))
  {
    hide Drives, Accepts, HoldsIt;
  }

  lemma DidPublish(c: Core, out: Out, fr: Frame, e: nat, f: nat, owner: Option<nat>)
    requires out.Ran? && e !in c.entries && f in c.fibers && Accepts(c, f, owner) && HoldsIt(out.cont, e)
    requires out.core.entries == c.entries[e := Running(false)]
    requires out.core.fibers == c.fibers[f := Entered(c.fibers[f], e, owner)]
    requires e in out.core.store && out.core.store[e].provider == f && out.core.store[e].owner == owner
    requires Drainless(fr) && (Holds(fr) == None || Holds(fr) == Some(e))
    ensures Did(c, out, fr, Enters(e, f, owner))
  {
    hide Drives, Accepts, HoldsIt;
  }

  lemma DidFinish(c: Core, out: Out, fr: Frame, e: nat, f: nat)
    requires out.Ran? && f in c.fibers && out.core == Finished(c, e, f) && Holds(fr) == Some(e)
    requires e in c.entries && e in c.store && c.store[e].provider == f && c.entries[e] != Done && Drainless(fr)
    requires forall k :: k in c.entries && k in c.store && c.store[k].owner == Some(e) ==> !Linked(c.entries[k])
    ensures Did(c, out, fr, Ends(e, f))
  {
    hide Drives, Accepts, Holds;
  }

  function UnwindDeed(c: Core, e: nat, f: nat, ch: Choice): Deed {
    if Unhandled(c, e) == {} then Ends(e, f)
    else if ch.entry in c.entries
        then Turns(ch.entry, if c.entries[ch.entry].Running? then Running(true) else Releasing)
    else Nothing
  }

  lemma DidUnwind(c: Core, fr: Frame, e: nat, f: nat, ch: Choice)
    requires f in c.fibers && ExecUnwind(c, fr, e, f, ch).Ran? && Holds(fr) == Some(e)
    requires e in c.entries && e in c.store && c.store[e].provider == f && c.entries[e] != Done && Drainless(fr)
    requires forall k :: k in c.store ==> (c.store[k].owner.Some? ==> c.store[k].owner.value < k)
    ensures Did(c, ExecUnwind(c, fr, e, f, ch), fr, UnwindDeed(c, e, f, ch))
  {
    hide Drives, Accepts, Holds, Unhandled, Did;
    if Unhandled(c, e) == {} {
      forall k | k in c.entries && k in c.store && c.store[k].owner == Some(e) ensures !Linked(c.entries[k]) {
        HandledChild(c, e, k);
      }
      DidFinish(c, ExecUnwind(c, fr, e, f, ch), fr, e, f);
    } else {
      UnhandledChild(c, e, ch.entry);
      DidRequest(c, ExecUnwind(c, fr, e, f, ch), fr, ch.entry);
    }
  }

  lemma HandledChild(c: Core, e: nat, k: nat)
    ensures Unhandled(c, e) == {} && k in c.entries && k in c.store && c.store[k].owner == Some(e) ==>
      !Linked(c.entries[k])
  {
    if Unhandled(c, e) == {} && k in c.entries && k in c.store && c.store[k].owner == Some(e) {
      assert k !in Unhandled(c, e);
    }
  }

  lemma UnhandledChild(c: Core, e: nat, k: nat)
    ensures k in Unhandled(c, e) ==> k in c.entries && k in c.store && c.store[k].owner == Some(e)
  {}

  /** A child a teardown has come to: its request is deferred, or its disposer starts. */
  lemma DidRequest(c: Core, out: Out, fr: Frame, k: nat)
    requires k in c.entries && out == ReleaseChild(c, fr, k) && out.Ran? && Holds(fr) != Some(k) && Drainless(fr)
    ensures Did(c, out, fr, Turns(k, if c.entries[k].Running? then Running(true) else Releasing))
  {
    hide Accepts;
  }

  function UnloadDeed(c: Core, f: nat, u: UPc, ch: Choice): Deed {
    match u
    case UClear => Clears(f)
    case UDrain(todo) =>
      if ch.entry !in todo || ch.entry !in c.entries then Nothing
      else (match c.entries[ch.entry]
            case Running(_) => Turns(ch.entry, Running(true))
            case Ready => Turns(ch.entry, Releasing)
            case Releasing => Nothing
            case Done => Nothing)
    case _ => Nothing
  }

  /** The activation is in section `u` of the unload of `f`, and goes on in `next`. */
  ghost predicate Unloading(fr: Frame, cont: Option<Frame>, f: nat, u: UPc, next: Option<UPc>) {
    && Drives(fr, f) && Holds(fr).None?
    && (forall g, e :: Drains(fr, g, e) <==> g == f && u.UDrain? && e in u.todo)
    && (forall e :: DrainsIt(cont, f, e) <==> next.Some? && next.value.UDrain? && e in next.value.todo)
  }

  lemma DidUnload(c: Core, f: nat, u: UPc, ch: Choice, out: Out, fr: Frame)
    requires f in c.fibers && UPcWf(c, u) && ExecUnload(c, f, u, ch).UMoved? && out.Ran?
    requires out.core == ExecUnload(c, f, u, ch).core
    requires Unloading(fr, out.cont, f, u, ExecUnload(c, f, u, ch).next) && out.call == ExecUnload(c, f, u, ch).call
    ensures Did(c, out, fr, UnloadDeed(c, f, u, ch))
  {
    hide Drives, Accepts, Holds, Drains, DrainsIt, HoldsIt, Linked, InTransit, UnloadLife, ExecDrain;
    if u.UDrain? && u.todo != {} { DidDrain(c, f, u.todo, ch, out, fr); }
    else { UnloadSections(c, f, u, ch); }
  }

  /** The other sections of an unload write one list at most. */
  lemma UnloadSections(c: Core, f: nat, u: UPc, ch: Choice)
    ensures f in c.fibers && UPcWf(c, u) && !(u.UDrain? && u.todo != {}) ==>
      var out := ExecUnload(c, f, u, ch);
      && out.UMoved? && out.core.entries == c.entries && (out.call.Some? ==> Holds(out.call.value).None?)
      && f in out.core.fibers && out.core.fibers == c.fibers[f := out.core.fibers[f]]
      && out.core.fibers[f].list == (if u.UClear? then {} else c.fibers[f].list)
      && (u.UClear? ==> out.next == Some(UDrain(c.fibers[f].list)))
  {
    hide UnloadLife;
  }

  lemma DidDrain(c: Core, f: nat, todo: set<nat>, ch: Choice, out: Out, fr: Frame)
    requires todo <= c.entries.Keys && ch.entry in todo && ExecDrain(c, todo, ch.entry).UMoved?
    requires out.Ran? && out.core == ExecDrain(c, todo, ch.entry).core
    requires out.call == ExecDrain(c, todo, ch.entry).call
    requires Unloading(fr, out.cont, f, UDrain(todo), ExecDrain(c, todo, ch.entry).next)
    ensures Did(c, out, fr, UnloadDeed(c, f, UDrain(todo), ch))
  {
    hide Drives, Accepts, Drains, DrainsIt;
    var phase := c.entries[ch.entry];
    if phase == Ready { DrainsReady(c, f, todo, ch, out, fr); }
  }

  /** The drain starts the disposer of a ready entry and goes on waiting for it. */
  lemma DrainsReady(c: Core, f: nat, todo: set<nat>, ch: Choice, out: Out, fr: Frame)
    requires todo <= c.entries.Keys && ch.entry in todo && c.entries[ch.entry] == Ready
    requires out.Ran? && out.core == ExecDrain(c, todo, ch.entry).core
    requires out.call == ExecDrain(c, todo, ch.entry).call
    requires Unloading(fr, out.cont, f, UDrain(todo), ExecDrain(c, todo, ch.entry).next)
    ensures Did(c, out, fr, UnloadDeed(c, f, UDrain(todo), ch))
  {
    hide Drives, Accepts, Drains, DrainsIt, FirstSection;
  }

  function DeedOf(c: Core, fr: Frame, ch: Choice): Deed {
    if !FrameWf(c, fr) then Nothing else
    match fr
    case Driver(f, pc) => if pc.Unload? then UnloadDeed(c, f, pc.u, ch) else Nothing
    case RootUnload(f, u) => UnloadDeed(c, f, u, ch)
    case Provide(f, _, _, owner, _, pv) =>
      (match pv
       case PvEnter(e) => if Accepts(c, f, owner) then Enters(e, f, owner) else Nothing
       case PvAbort(e) => Ends(e, f)
       case PvInstall(e) => Installs(e, c.entries[e])
       case _ => Nothing)
    case Effect(f, owner, fx) =>
      (match fx
       case FxEnter => if Accepts(c, f, owner) then Enters(c.bindingSeq + 1, f, owner) else Nothing
       case FxBody(e) => if ch.ok then Installs(e, c.entries[e]) else Nothing
       case FxAbandon(e) => UnwindDeed(c, e, f, ch))
    case Disposer(e, un) => if un.UnDone? then UnwindDeed(c, e, c.store[e].provider, ch) else Nothing
    case Release(e) =>
      if c.entries[e].Running? || c.entries[e].Ready? then Turns(e, Requested(c.entries[e])) else Nothing
    case Load(parent, owner, _, _, _, ld) =>
      (match ld
       case LdEnter(_, _) => if Accepts(c, parent, owner) then Enters(c.bindingSeq + 1, parent, owner) else Nothing
       case LdInstall(_, _, e) => Installs(e, c.entries[e])
       case _ => Nothing)
    case _ => Nothing
  }

  lemma DriverLists(c: Core, fib: Fiber, pc: Pc, ch: Choice)
    ensures PcWf(c, fib, pc) ==> DriverFiber(c, fib, pc, ch).list == fib.list
  {
    hide DriverLife, DriverDrive, DriverErr, PcWf;
  }

  lemma DidDriver(c: Core, f: nat, pc: Pc, ch: Choice)
    ensures Fits(c, Driver(f, pc)) && ExecDriver(c, f, pc, ch).Ran? ==>
      Did(c, ExecDriver(c, f, pc, ch), Driver(f, pc), DeedOf(c, Driver(f, pc), ch))
  {
    hide CoreWf, Did, DriverFiber, DriverNext, Chooses, ExecUnload, PcWf, UnloadDeed, FrameWf;
    if Fits(c, Driver(f, pc)) && ExecDriver(c, f, pc, ch).Ran? {
      if pc.Unload? {
        PcWfUnload(c, c.fibers[f], pc);
        assert Unloading(Driver(f, pc), ExecDriver(c, f, pc, ch).cont, f, pc.u, ExecUnload(c, f, pc.u, ch).next);
        hide Unloading;
        DidUnload(c, f, pc.u, ch, ExecDriver(c, f, pc, ch), Driver(f, pc));
      } else {
        DriverLists(c, c.fibers[f], pc, ch);
        DidNothing(c, ExecDriver(c, f, pc, ch), Driver(f, pc));
      }
    }
  }

  lemma DidRoot(c: Core, u: UPc, ch: Choice)
    ensures Executes(c, RootUnload(0, u), ch) ==>
      Did(c, Exec(c, RootUnload(0, u), ch), RootUnload(0, u), DeedOf(c, RootUnload(0, u), ch))
  {
    hide CoreWf, Did, ExecUnload, UnloadDeed, ExecDriver, ExecLoad, ExecNotify, ExecProvide, ExecEffect;
    hide ExecDisposer, PcWf, ExecDisposing;
    if Executes(c, RootUnload(0, u), ch) {
      DidUnload(c, 0, u, ch, Exec(c, RootUnload(0, u), ch), RootUnload(0, u));
    }
  }

  /** What is made through a scope is younger than it, and belongs to the same fiber. */
  lemma Owners(c: Core)
    ensures CoreWf(c) ==>
      forall k :: k in c.store && c.store[k].owner.Some? ==>
          c.store[k].owner.value < k && OwnerWf(c, c.store[k].provider, c.store[k].owner)
  {
    hide CoreWf, OwnerWf;
    if CoreWf(c) {
      forall k | k in c.store && c.store[k].owner.Some?
        ensures c.store[k].owner.value < k && OwnerWf(c, c.store[k].provider, c.store[k].owner)
      {
        BindingFacts(c, k);
      }
    }
  }

  lemma DidProvide(c: Core, fr: Frame, ch: Choice)
    ensures Fits(c, fr) && fr.Provide? && HolderKnows(c, fr) ==>
      Did(c, ExecProvide(c, fr, ch), fr, DeedOf(c, fr, ch))
  {
    hide CoreWf, Did, Accepts, AtSlot, Entered, Finished, PcWf;
    if Fits(c, fr) && fr.Provide? && HolderKnows(c, fr) {
      var out := ExecProvide(c, fr, ch);
      if fr.pv.PvEnter? && Accepts(c, fr.f, fr.owner) {
        DidPublish(c, out, fr, fr.pv.e, fr.f, fr.owner);
      } else if fr.pv.PvAbort? {
        Owners(c);
        DidFinish(c, out, fr, fr.pv.e, fr.f);
      } else if fr.pv.PvInstall? {
        DidInstall(c, out, fr, fr.pv.e);
      } else {
        ProvideSame(c, fr, ch);
        DidNothing(c, out, fr);
      }
    }
  }

  /** The other sections of a Provide write no entry and no list, and keep what they hold. */
  lemma ProvideSame(c: Core, fr: Frame, ch: Choice)
    ensures
      && Fits(c, fr) && fr.Provide? && HolderKnows(c, fr) && !fr.pv.PvAbort? && !fr.pv.PvInstall?
      && (fr.pv.PvEnter? ==> !Accepts(c, fr.f, fr.owner))
      ==>
      var out := ExecProvide(c, fr, ch);
      && out.core.entries == c.entries
      && (forall f :: f in c.fibers ==> f in out.core.fibers && out.core.fibers[f].list == c.fibers[f].list)
      && (Holds(fr).Some? && Holds(fr).value in c.entries ==> HoldsIt(out.cont, Holds(fr).value))
  {
    hide CoreWf, Accepts, AtSlot, OwnerWf, NumberedFor, FirstSection, PcWf, EffectWf, LoadWf, Fits;
  }

  lemma DidEffect(c: Core, fr: Frame, ch: Choice)
    ensures Fits(c, fr) && fr.Effect? && HolderKnows(c, fr) && ExecEffect(c, fr, ch).Ran? ==>
      Did(c, ExecEffect(c, fr, ch), fr, DeedOf(c, fr, ch))
  {
    hide CoreWf, Did, Accepts, Entered, ExecUnwind, UnwindDeed, PcWf;
    if Fits(c, fr) && fr.Effect? && HolderKnows(c, fr) && ExecEffect(c, fr, ch).Ran? {
      NextNumber(c);
      EntryKeys(c);
      var out := ExecEffect(c, fr, ch);
      match fr.fx
      case FxEnter =>
        if Accepts(c, fr.f, fr.owner) {
          DidPublish(c, out, fr, c.bindingSeq + 1, fr.f, fr.owner);
        } else {
          DidNothing(c, out, fr);
        }
      case FxBody(e) => if ch.ok { DidInstall(c, out, fr, e); } else { DidNothing(c, out, fr); }
      case FxAbandon(e) =>
        Owners(c);
        DidUnwind(c, fr, e, fr.f, ch);
    }
  }

  lemma DidDisposer(c: Core, fr: Frame, ch: Choice)
    ensures Fits(c, fr) && fr.Disposer? && HolderKnows(c, fr) && ExecDisposer(c, fr, ch).Ran? ==>
      Did(c, ExecDisposer(c, fr, ch), fr, DeedOf(c, fr, ch))
  {
    hide CoreWf, Did, ExecUnwind, UnwindDeed, PcWf;
    if Fits(c, fr) && fr.Disposer? && HolderKnows(c, fr) && ExecDisposer(c, fr, ch).Ran? {
      BindingFacts(c, fr.e);
      match fr.un
      case UnRegister => DidNothing(c, ExecDisposer(c, fr, ch), fr);
      case UnSnapshot => DidNothing(c, ExecDisposer(c, fr, ch), fr);
      case UnChild => DidNothing(c, ExecDisposer(c, fr, ch), fr);
      case UnDone =>
        Owners(c);
        DidUnwind(c, fr, fr.e, c.store[fr.e].provider, ch);
    }
  }

  lemma DidRelease(c: Core, e: nat, ch: Choice)
    ensures Fits(c, Release(e)) ==> Did(c, ExecDisposer(c, Release(e), ch), Release(e), DeedOf(c, Release(e), ch))
  {
    hide CoreWf, Accepts, Drives;
    if Fits(c, Release(e)) {
      match c.entries[e]
      case Running(_) => case Ready => case Releasing => case Done =>
    }
  }

  lemma DidLoad(c: Core, fr: Frame, ch: Choice)
    ensures Fits(c, fr) && fr.Load? && HolderKnows(c, fr) ==> Did(c, ExecLoad(c, fr, ch), fr, DeedOf(c, fr, ch))
  {
    hide CoreWf, Did, Accepts, Entered, PcWf;
    if Fits(c, fr) && fr.Load? && HolderKnows(c, fr) {
      var out := ExecLoad(c, fr, ch);
      if fr.ld.LdEnter? && Accepts(c, fr.parent, fr.owner) {
        NextNumber(c);
        EntryKeys(c);
        DidPublish(c, out, fr, c.bindingSeq + 1, fr.parent, fr.owner);
      } else if fr.ld.LdInstall? {
        DidInstall(c, out, fr, fr.ld.e);
      } else {
        DidLoadRest(c, fr, ch);
      }
    }
  }

  lemma DidLoadRest(c: Core, fr: Frame, ch: Choice)
    requires Fits(c, fr) && fr.Load? && !fr.ld.LdInstall?
    requires (fr.ld.LdEnter? ==> !Accepts(c, fr.parent, fr.owner))
    ensures Did(c, ExecLoad(c, fr, ch), fr, Nothing)
  {
    hide CoreWf, Did, Accepts, Entered, FrameWf;
    LoadSame(c, fr, ch);
    LoadFibers(c, fr, ch);
    if fr.ld.LdNew? { CounterFresh(c); }
    DidNothing(c, ExecLoad(c, fr, ch), fr);
  }

  lemma CounterFresh(c: Core)
    ensures CoreWf(c) ==> c.counter + 1 !in c.fibers
  {
    hide CoreWf;
    if c.counter + 1 in c.fibers { CoreFacts(c, c.counter + 1); }
  }

  /** The other sections of a load write no entry and no list. */
  lemma LoadSame(c: Core, fr: Frame, ch: Choice)
    requires Fits(c, fr) && fr.Load? && !fr.ld.LdInstall?
    requires (fr.ld.LdEnter? ==> !Accepts(c, fr.parent, fr.owner))
    ensures var out := ExecLoad(c, fr, ch);
      out.core.entries == c.entries && (fr.ld.LdAttach? ==> HoldsIt(out.cont, fr.ld.e))
  {
    hide CoreWf, Accepts, Fits, PublishNext;
    match fr.ld
    case LdGate => case LdClaim => case LdNew(_) => case LdEnter(_, _) =>
    case LdAttach(_, _, _) => case LdStart(_, _, _) => case LdDiscard(_, _) =>
  }

  lemma DidDisposing(c: Core, f: nat, ds: DisposePc)
    ensures CoreWf(c) && f in c.fibers ==> Did(c, ExecDisposing(c, f, ds), Disposing(f, ds), Nothing)
  {
    hide CoreWf, RemoveFiber, Did;
    if CoreWf(c) && f in c.fibers {
      CoreFacts(c, f);
      if !c.fibers[f].fixed.root { RemoveKeeps(c, c.fibers[f].fixed.runtime, f); }
      DidNothing(c, ExecDisposing(c, f, ds), Disposing(f, ds));
    }
  }

  /** Requests and notifications write no entry and no list. */
  lemma DidQuiet(c: Core, fr: Frame, ch: Choice)
    requires Executes(c, fr, ch) && OnlyAsks(fr)
    ensures Did(c, Exec(c, fr, ch), fr, Nothing)
  {
    hide CoreWf, FrameWf, Did, Exec;
    AskingWrites(c, fr, ch);
    DidNothing(c, Exec(c, fr, ch), fr);
  }

  lemma Does(c: Core, fr: Frame, ch: Choice)
    ensures Executes(c, fr, ch) && HolderKnows(c, fr) ==> Did(c, Exec(c, fr, ch), fr, DeedOf(c, fr, ch))
  {
    hide CoreWf, PcWf, Did, HolderKnows, ExecDriver;
    hide ExecUnload, ExecProvide, ExecEffect, ExecDisposer, ExecLoad, ExecDisposing;
    hide ExecRefresh, ExecNotify, ExecRestarting;
    if Executes(c, fr, ch) && HolderKnows(c, fr) {
      match fr
      case Refresh(_) => DidQuiet(c, fr, ch);
      case Driver(f, pc) => DidDriver(c, f, pc, ch);
      case RootUnload(_, u) => DidRoot(c, u, ch);
      case NotifyProvided(_) => DidQuiet(c, fr, ch);
      case NotifyNames(_, _) => DidQuiet(c, fr, ch);
      case Notify(_, _) => DidQuiet(c, fr, ch);
      case Wake(_) => DidQuiet(c, fr, ch);
      case Provide(_, _, _, _, _, _) => DidProvide(c, fr, ch);
      case Effect(_, _, _) => DidEffect(c, fr, ch);
      case Disposer(_, _) => DidDisposer(c, fr, ch);
      case Release(e) => DidRelease(c, e, ch);
      case Disposing(f, ds) => DidDisposing(c, f, ds);
      case Restarting(_, _, _) => DidQuiet(c, fr, ch);
      case Load(_, _, _, _, _, _) => DidLoad(c, fr, ch);
    }
  }

  // ----- who is bound to tear an entry down -----

  ghost predicate Draining(pool: map<nat, Frame>, f: nat, e: nat) {
    exists t :: t in pool && Drains(pool[t], f, e)
  }

  ghost predicate Held(pool: map<nat, Frame>, e: nat) {
    exists t :: t in pool && Holds(pool[t]) == Some(e)
  }

  predicate Lists(c: Core, f: nat, e: nat) {
    f in c.fibers && e in c.fibers[f].list
  }

  predicate Unfinished(c: Core, e: nat) {
    e in c.entries && c.entries[e] != Done
  }

  /** A teardown of its fiber or of its owner will come to the entry. */
  ghost predicate Bound(c: Core, pool: map<nat, Frame>, e: nat)
    requires e in c.store
  {
    var b := c.store[e];
    if b.owner.Some? then Unfinished(c, b.owner.value) else Lists(c, b.provider, e) || Draining(pool, b.provider, e)
  }

  ghost predicate Minded(c: Core, pool: map<nat, Frame>, e: nat) {
    e in c.entries && e in c.store ==>
      && (Linked(c.entries[e]) ==> Bound(c, pool, e))
      && (InTransit(c.entries[e]) ==> Held(pool, e))
  }

  /** Listed are unfinished entries of the fiber itself. */
  predicate ListOk(c: Core, f: nat) {
    f in c.fibers ==> forall e :: e in c.fibers[f].list ==>
        Unfinished(c, e) && e in c.store && c.store[e].provider == f && c.store[e].owner.None?
  }

  ghost predicate TreeOk(s: Sys) {
    && (forall e :: e in s.core.entries ==> Minded(s.core, s.pool, e))
    && (forall f :: f in s.core.fibers ==> ListOk(s.core, f))
  }

  /** A linked entry was linked before, and stays bound to what it was bound to. */
  lemma StaysLinked(c: Core, out: Out, fr: Frame, d: Deed, e: nat)
    ensures out.Ran? && Did(c, out, fr, d) && e in c.entries && e in c.store && Linked(out.core.entries[e]) ==>
      && Linked(c.entries[e])
      && (var b := c.store[e];
         && (Lists(c, b.provider, e) ==> Lists(out.core, b.provider, e) || DrainsIt(out.cont, b.provider, e))
         && (b.owner.Some? && Unfinished(c, b.owner.value) ==> Unfinished(out.core, b.owner.value)))
  {
    hide Holds, Drains, DrainsIt, HoldsIt, Accepts, Entered, KeepsHold;
    match d
    case Nothing => case Enters(_, _, _) => case Ends(_, _) => case Turns(_, _) => case Clears(_) =>
  }

  /** An entry in transit was so before, in other hands, or an activation of this step holds it. */
  lemma StaysHeld(c: Core, out: Out, fr: Frame, d: Deed, e: nat)
    ensures out.Ran? && Did(c, out, fr, d) && e in out.core.entries && InTransit(out.core.entries[e]) ==>
      (e in c.entries && InTransit(c.entries[e]) && Holds(fr) != Some(e)) || HoldsIt(out.cont, e)
          || HoldsIt(out.call, e)
  {
    hide Holds, Drains, DrainsIt, HoldsIt, Accepts, Entered;
    match d
    case Nothing => case Enters(_, _, _) => case Ends(_, _) => case Turns(_, _) => case Clears(_) =>
  }

  lemma BornBound(c: Core, out: Out, fr: Frame, d: Deed, e: nat)
    ensures out.Ran? && Did(c, out, fr, d) && e in out.core.entries && e !in c.entries ==>
      && d == Enters(e, d.f, d.owner) && e in out.core.store
      && out.core.entries[e] == Running(false) && HoldsIt(out.cont, e)
      && (var b := out.core.store[e];
         b.provider == d.f && b.owner == d.owner && if b.owner.Some? then Unfinished(out.core, b.owner.value)
             else Lists(out.core, b.provider, e))
  {
    hide Holds, Drains, DrainsIt, KeepsHold;
  }

  lemma InPool(s: Sys, t: nat, out: Out, s': Sys, k: nat)
    ensures t in s.pool && out.Ran? && s' == After(s, t, out) && s.next !in s.pool && t != s.next ==>
      (k in s.pool && k != t ==> k in s'.pool && s'.pool[k] == s.pool[k])
      && (out.cont.Some? ==> t in s'.pool && s'.pool[t] == out.cont.value)
      && (out.call.Some? ==> s.next in s'.pool && s'.pool[s.next] == out.call.value)
  {}

  lemma HeldOn(s: Sys, t: nat, out: Out, s': Sys, e: nat)
    requires t in s.pool && out.Ran? && s' == After(s, t, out) && s.next !in s.pool && t != s.next
    requires (Held(s.pool, e) && Holds(s.pool[t]) != Some(e)) || HoldsIt(out.cont, e) || HoldsIt(out.call, e)
    ensures Held(s'.pool, e)
  {
    hide Holds;
    if HoldsIt(out.cont, e) { InPool(s, t, out, s', t); }
    else if HoldsIt(out.call, e) { InPool(s, t, out, s', t); }
    else {
      var k :| k in s.pool && Holds(s.pool[k]) == Some(e);
      InPool(s, t, out, s', k);
    }
  }

  lemma DrainOn(s: Sys, t: nat, out: Out, s': Sys, f: nat, e: nat)
    requires t in s.pool && out.Ran? && s' == After(s, t, out) && s.next !in s.pool && t != s.next
    requires (Draining(s.pool, f, e) && (Drains(s.pool[t], f, e) ==> DrainsIt(out.cont, f, e)))
      || DrainsIt(out.cont, f, e)
    ensures Draining(s'.pool, f, e)
  {
    hide Drains;
    InPool(s, t, out, s', t);
    if !DrainsIt(out.cont, f, e) {
      var k :| k in s.pool && Drains(s.pool[k], f, e);
      InPool(s, t, out, s', k);
    }
  }

  lemma MindedStep(s: Sys, t: nat, ch: Choice, s': Sys, e: nat)
    ensures SysWf(s) && SysWf(s') && HoldersOk(s) && TreeOk(s) && Steps(s, t, ch, s') && e in s'.core.entries ==>
      Minded(s'.core, s'.pool, e)
  {
    hide CoreWf, FrameWf, Exec, Holds, Drains, HolderKnows, ListOk, Lists, Unfinished, Did, DeedOf;
    if SysWf(s) && SysWf(s') && HoldersOk(s) && TreeOk(s) && Steps(s, t, ch, s') && e in s'.core.entries {
      var c, fr, out, c' := s.core, s.pool[t], Exec(s.core, s.pool[t], ch), s'.core;
      Does(c, fr, ch);
      var d := DeedOf(c, fr, ch);
      EntryKeys(c);
      if e !in c.entries {
        BornBound(c, out, fr, d, e);
        HeldOn(s, t, out, s', e);
      } else {
        StepWf(s, t, ch, s');
        assert Minded(c, s.pool, e) && c'.store[e] == c.store[e];
        if Linked(c'.entries[e]) {
          StaysLinked(c, out, fr, d, e);
          if c.store[e].owner.None? && !Lists(c', c.store[e].provider, e) {
            if Drains(fr, c.store[e].provider, e) { DrainsOn(c, out, fr, d, c.store[e].provider, e); }
            DrainOn(s, t, out, s', c.store[e].provider, e);
          }
        }
        if InTransit(c'.entries[e]) {
          StaysHeld(c, out, fr, d, e);
          HeldOn(s, t, out, s', e);
        }
      }
    }
  }

  lemma DrainsOn(c: Core, out: Out, fr: Frame, d: Deed, f: nat, e: nat)
    ensures
      && out.Ran? && Did(c, out, fr, d) && e in out.core.entries && Linked(out.core.entries[e]) && Drains(fr, f, e)
      ==> DrainsIt(out.cont, f, e)
  {}

  lemma ListStep(c: Core, out: Out, fr: Frame, d: Deed, f: nat)
    requires out.Ran? && Did(c, out, fr, d) && Grows(c, out.core) && f in c.fibers && ListOk(c, f)
    ensures ListOk(out.core, f)
  {
    hide Holds, Drains, DrainsIt, KeepsHold, HoldsIt, Accepts, Entered, Linked, InTransit;
    match d
    case Nothing => case Enters(_, _, _) => case Ends(_, _) => case Turns(_, _) => case Clears(_) =>
  }

  lemma TreeStep(s: Sys, t: nat, ch: Choice, s': Sys)
    requires SysWf(s) && SysWf(s') && HoldersOk(s) && TreeOk(s) && Steps(s, t, ch, s')
    ensures TreeOk(s')
  {
    hide CoreWf, FrameWf, Exec, HolderKnows, ListOk, Minded, Did, DeedOf, Grows;
    forall e | e in s'.core.entries ensures Minded(s'.core, s'.pool, e) { MindedStep(s, t, ch, s', e); }
    var c, fr, out := s.core, s.pool[t], Exec(s.core, s.pool[t], ch);
    Does(c, fr, ch);
    StepWf(s, t, ch, s');
    forall f | f in s'.core.fibers ensures ListOk(s'.core, f) {
      if f in c.fibers { ListStep(c, out, fr, DeedOf(c, fr, ch), f); }
      else { Newborn(c, fr, ch, f); BornEmpty(s'.core, f, fr.parent, fr.ld.r, fr.inject, fr.scope); }
    }
  }

  lemma BornEmpty(c: Core, f: nat, parent: nat, r: nat, inject: set<Name>, scope: map<Name, Label>)
    ensures f in c.fibers && c.fibers[f] == NewFiber(parent, r, inject, scope) ==> ListOk(c, f)
  {}

  lemma TreeCall(s: Sys, fr: Frame, s': Sys)
    ensures SysWf(s) && TreeOk(s) && Calls(s, fr, s') ==> TreeOk(s')
  {
    hide CoreWf, FrameWf, EntryPoint, Holds, Drains, ListOk;
    if SysWf(s) && TreeOk(s) && Calls(s, fr, s') {
      forall e | e in s'.core.entries ensures Minded(s'.core, s'.pool, e) {
        assert Minded(s.core, s.pool, e);
        forall f | Draining(s.pool, f, e) ensures Draining(s'.pool, f, e) {
          var k :| k in s.pool && Drains(s.pool[k], f, e);
          assert k in s'.pool && s'.pool[k] == s.pool[k];
        }
        if Held(s.pool, e) {
          var k :| k in s.pool && Holds(s.pool[k]) == Some(e);
          assert k in s'.pool && s'.pool[k] == s.pool[k];
        }
      }
    }
  }
}
