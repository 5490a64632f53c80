/** Child fibers are effects of their parent: a child whose slot was torn down is disposed of. */
module ReactiveChildren {
  import opened Options
  import opened Reactive
  import opened ReactiveWf
  import opened ReactiveDriver
  import opened ReactiveQuiescence
  import opened ReactiveEntries
  import opened ReactiveEffects
  import opened ReactiveOwnership

  /** The fiber is disposed of, or an activation is about to mark it. */
  ghost predicate Ending(s: Sys, f: nat) {
    (f in s.core.fibers && s.core.fibers[f].disposed) || exists t :: t in s.pool && s.pool[t] == Disposing(f, DsMark)
  }

  predicate SlotOf(c: Core, e: nat, f: nat) {
    e in c.entries && e in c.store && c.store[e].kind == Child(f)
  }

  /** A load attaches its fiber before its body returns, and a teardown reaches the fiber before it ends. */
  ghost predicate ChildOk(s: Sys, e: nat, f: nat) {
    SlotOf(s.core, e, f) ==>
      && (!s.core.entries[e].Running? ==> PublishedFiber(s.core, f))
      && (s.core.entries[e] == Done ==> Ending(s, f))
      && (forall t :: t in s.pool && s.pool[t] == Disposer(e, UnDone) ==> Ending(s, f))
  }

  ghost predicate HasSlot(c: Core, f: nat) {
    exists e :: SlotOf(c, e, f)
  }

  ghost predicate ChildrenOk(s: Sys) {
    && (forall e, f :: SlotOf(s.core, e, f) ==> ChildOk(s, e, f))
    && (forall f :: PublishedFiber(s.core, f) && f != 0 ==> HasSlot(s.core, f))
  }

  // ----- phases of a slot -----

  lemma SlotKept(c: Core, c': Core, e: nat, f: nat)
    ensures CoreWf(c) && Grows(c, c') ==>
      (SlotOf(c, e, f) ==> SlotOf(c', e, f)) && (e in c.entries ==> (SlotOf(c', e, f) ==> SlotOf(c, e, f)))
  {
    hide CoreWf;
    EntryKeys(c);
  }

  /** Only its load ends the body of a slot. */
  lemma SlotReturns(c: Core, out: Out, fr: Frame, ch: Choice, e: nat, f: nat)
    requires Fits(c, fr) && HolderKnows(c, fr) && out.Ran? && Did(c, out, fr, DeedOf(c, fr, ch))
    requires SlotOf(c, e, f)
    requires c.entries[e].Running? && e in out.core.entries && !out.core.entries[e].Running?
    ensures PublishedFiber(c, f)
  {
    hide CoreWf, KeepsHold, Accepts, Entered, AtSlot, Unhandled, OwnerWf, Drains, DeedOk, PcWf;
    var d := DeedOf(c, fr, ch);
    assert (d.Ends? || d.Turns?) && d.e == e;
  }

  /** Only its disposer finishes a slot. */
  lemma SlotEnds(c: Core, out: Out, fr: Frame, ch: Choice, e: nat, f: nat)
    requires Fits(c, fr) && out.Ran? && Did(c, out, fr, DeedOf(c, fr, ch)) && SlotOf(c, e, f)
    requires c.entries[e] != Done && e in out.core.entries && out.core.entries[e] == Done
    ensures fr == Disposer(e, UnDone)
  {
    hide CoreWf, KeepsHold, Accepts, Entered, Unhandled, OwnerWf, Drains, DeedOk, PcWf;
  }

  // ----- the invariant -----

  lemma EndingStep(s: Sys, t: nat, ch: Choice, s': Sys, f: nat)
    ensures SysWf(s) && Steps(s, t, ch, s') && f in s.core.fibers && f != 0 && Ending(s, f) ==> Ending(s', f)
  {
    hide CoreWf, FrameWf, Exec;
    if SysWf(s) && Steps(s, t, ch, s') && f in s.core.fibers && f != 0 && Ending(s, f) {
      var c, fr := s.core, s.pool[t];
      if c.fibers[f].disposed {
        NotUndisposed(c, fr, ch, f);
      } else {
        var k :| k in s.pool && s.pool[k] == Disposing(f, DsMark);
        if k == t { MarkDisposes(c, f, ch); }
        else { assert k in s'.pool && s'.pool[k] == Disposing(f, DsMark); }
      }
    }
  }

  lemma MarkDisposes(c: Core, f: nat, ch: Choice)
    ensures Fits(c, Disposing(f, DsMark)) ==>
      var c' := Exec(c, Disposing(f, DsMark), ch).core; f in c'.fibers && c'.fibers[f].disposed
  {
    hide CoreWf, ExecDriver, ExecLoad, ExecRootUnload, ExecNotify, ExecProvide, ExecEffect, ExecDisposer;
  }

  /** The last section of a slot's disposer comes after the one that disposes of the fiber. */
  lemma LastSection(c: Core, fr: Frame, ch: Choice, e: nat, f: nat)
    ensures
      && Executes(c, fr, ch) && SlotOf(c, e, f) && Exec(c, fr, ch).cont == Some(Disposer(e, UnDone))
      && fr != Disposer(e, UnDone)
      ==> fr == Disposer(e, UnChild)
          && (PublishedFiber(c, f) ==> Exec(c, fr, ch).call == Some(Disposing(f, DsMark)))
  {
    hide CoreWf, Executes, ExecDriver, ExecLoad, ExecRootUnload;
    if fr.Provide? { hide Accepts; }
    else if fr.Disposer? { hide Unhandled; }
    else {
      OtherConts(c, fr, ch);
      hide Exec;
    }
  }

  lemma ChildOkStep(s: Sys, t: nat, ch: Choice, s': Sys, e: nat, f: nat)
    requires SysWf(s) && SysWf(s') && HoldersOk(s) && HoldersOk(s') && ChildrenOk(s) && Steps(s, t, ch, s')
    requires SlotOf(s'.core, e, f)
    ensures ChildOk(s', e, f)
  {
    hide CoreWf, FrameWf, Exec, HoldApart, Ending, Did, SlotOf, PublishedFiber, HasSlot, DeedOf;
    var c, fr, out := s.core, s.pool[t], Exec(s.core, s.pool[t], ch);
    Does(c, fr, ch);
    StepWf(s, t, ch, s');
    SlotKept(c, s'.core, e, f);
    if e in c.entries {
      assert ChildOk(s, e, f);
      SlotFiber(c, e, f);
      if Ending(s, f) { EndingStep(s, t, ch, s', f); }
      PhaseStep(s, t, ch, s', e, f);
      forall k | k in s'.pool && s'.pool[k] == Disposer(e, UnDone) ensures Ending(s', f) {
        DisposerStep(s, t, ch, s', e, f, k);
      }
    } else {
      SlotFiber(s'.core, e, f);
      BornBound(c, out, fr, DeedOf(c, fr, ch), e);
      forall k | k in s'.pool ensures s'.pool[k] != Disposer(e, UnDone) { assert HolderKnows(s'.core, s'.pool[k]); }
    }
  }

  lemma SlotFiber(c: Core, e: nat, f: nat)
    ensures CoreWf(c) && SlotOf(c, e, f) ==> f in c.fibers && f != 0 && e in c.entries
  {
    hide CoreWf;
    BindingFacts(c, e);
  }

  lemma PhaseStep(s: Sys, t: nat, ch: Choice, s': Sys, e: nat, f: nat)
    requires SysWf(s) && SysWf(s') && Grows(s.core, s'.core) && HoldersOk(s) && Steps(s, t, ch, s')
    requires SlotOf(s.core, e, f)
    requires ChildOk(s, e, f) && (Ending(s, f) ==> Ending(s', f)) && e in s'.core.entries
    ensures !s'.core.entries[e].Running? ==> PublishedFiber(s'.core, f)
    ensures s'.core.entries[e] == Done ==> Ending(s', f)
  {
    hide CoreWf, FrameWf, Exec, HolderKnows, HoldApart, Ending, Did, SlotOf, DeedOf, Grows;
    var c, fr, out := s.core, s.pool[t], Exec(s.core, s.pool[t], ch);
    Does(c, fr, ch);
    SlotFiber(c, e, f);
    if !s'.core.entries[e].Running? && c.entries[e].Running? { SlotReturns(c, out, fr, ch, e, f); }
    if s'.core.entries[e] == Done && c.entries[e] != Done { SlotEnds(c, out, fr, ch, e, f); }
    PublishedOn(c, s'.core, f);
  }

  lemma PublishedOn(c: Core, c': Core, f: nat)
    ensures Grows(c, c') ==> PublishedFiber(c, f) ==> PublishedFiber(c', f)
  {}

  lemma DisposerStep(s: Sys, t: nat, ch: Choice, s': Sys, e: nat, f: nat, k: nat)
    requires SysWf(s) && HoldersOk(s) && Steps(s, t, ch, s') && SlotOf(s.core, e, f) && ChildOk(s, e, f)
    requires (Ending(s, f) ==> Ending(s', f)) && k in s'.pool && s'.pool[k] == Disposer(e, UnDone)
    ensures Ending(s', f)
  {
    hide CoreWf, FrameWf, Exec, HoldApart;
    var c, fr, out := s.core, s.pool[t], Exec(s.core, s.pool[t], ch);
    if k in s.pool && s.pool[k] == Disposer(e, UnDone) {
      assert Ending(s, f);
    } else if k == t {
      LastSection(c, fr, ch, e, f);
      assert HolderKnows(c, fr);
      assert s'.pool[s.next] == Disposing(f, DsMark);
    } else {
      CallsFirst(c, fr, ch);
    }
  }

  lemma SlotsFound(s: Sys, t: nat, ch: Choice, s': Sys, f: nat)
    requires SysWf(s) && Grows(s.core, s'.core) && ChildrenOk(s) && Steps(s, t, ch, s')
    requires PublishedFiber(s'.core, f) && f != 0
    ensures HasSlot(s'.core, f)
  {
    hide CoreWf, FrameWf, Exec, ChildOk, SlotOf, Did, Grows;
    var c, fr := s.core, s.pool[t];
    if PublishedFiber(c, f) {
      var e :| SlotOf(c, e, f);
      SlotKept(c, s'.core, e, f);
    } else {
      AttachedSlot(c, fr, ch, f);
      SlotKept(c, s'.core, fr.ld.e, f);
    }
  }

  /** A fiber is published when its load attaches it, with its slot made before. */
  lemma AttachedSlot(c: Core, fr: Frame, ch: Choice, f: nat)
    ensures Executes(c, fr, ch) && PublishedFiber(Exec(c, fr, ch).core, f) && !PublishedFiber(c, f) && f != 0 ==>
      fr.Load? && fr.ld.LdAttach? && SlotOf(c, fr.ld.e, f)
  {
    hide CoreWf, Exec, PcWf, ExecLoad, LoadedFiber, Foreign;
    if Executes(c, fr, ch) && PublishedFiber(Exec(c, fr, ch).core, f) && !PublishedFiber(c, f) && f != 0 {
      if f !in c.fibers { Newborn(c, fr, ch, f); }
      else if fr.Load? {
        LoadSteps(c, fr, ch);
        ForeignLoad(c, fr, ch, f);
        LoadPublishes(c, fr, f);
      }
      else if !Owns(fr, f) { ForeignStep(c, fr, ch, f); }
    }
  }

  lemma LoadSteps(c: Core, fr: Frame, ch: Choice)
    ensures Fits(c, fr) && fr.Load? ==> Exec(c, fr, ch) == ExecLoad(c, fr, ch)
  {
    hide CoreWf, FrameWf, ExecLoad, ExecDriver, ExecRootUnload, ExecNotify, ExecProvide, ExecEffect, ExecDisposer;
    hide ExecDisposing;
  }

  lemma LoadPublishes(c: Core, fr: Frame, f: nat)
    ensures fr.Load? && f in c.fibers && LoadedFiber(c, fr, f).published && !c.fibers[f].published ==>
      fr.ld.LdAttach? && fr.ld.f == f
  {
    hide Accepts;
  }

  lemma ChildrenStep(s: Sys, t: nat, ch: Choice, s': Sys)
    requires SysWf(s) && SysWf(s') && HoldersOk(s) && HoldersOk(s') && ChildrenOk(s) && Steps(s, t, ch, s')
    ensures ChildrenOk(s')
  {
    hide SysWf, HoldersOk, Steps, SlotOf, ChildOk, HasSlot, PublishedFiber, Grows;
    StepWf(s, t, ch, s');
    forall e, f | SlotOf(s'.core, e, f) ensures ChildOk(s', e, f) { ChildOkStep(s, t, ch, s', e, f); }
    forall f | PublishedFiber(s'.core, f) && f != 0 ensures HasSlot(s'.core, f) { SlotsFound(s, t, ch, s', f); }
  }

  lemma ChildrenCall(s: Sys, fr: Frame, s': Sys)
    ensures SysWf(s) && ChildrenOk(s) && Calls(s, fr, s') ==> ChildrenOk(s')
  {
    hide CoreWf, FrameWf, SlotOf, HasSlot, PublishedFiber;
    if SysWf(s) && ChildrenOk(s) && Calls(s, fr, s') {
      forall e, f | SlotOf(s'.core, e, f) ensures ChildOk(s', e, f) {
        assert ChildOk(s, e, f);
        if k :| k in s.pool && s.pool[k] == Disposing(f, DsMark) {
          assert k in s'.pool && s'.pool[k] == Disposing(f, DsMark);
        }
      }
    }
  }
}
