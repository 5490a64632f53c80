/** What a disposal leaves behind: a fiber that is marked while no generation is live never unwinds. */
module ReactiveDisposal {
  import opened Options
  import opened Reactive
  import opened ReactiveWf
  import opened ReactiveDriver
  import opened ReactiveQuiescence
  import opened ReactiveLifecycle
  import opened ReactiveEntries
  import opened ReactiveEffects

  /** Where the driver of a disposed fiber with nothing live can be. */
  predicate Bypasses(pc: Pc) {
    pc == PassStart || pc == SyncTop || pc == PassEnd || pc == Unload(UClaim, BySync) || pc == Unload(UFinal, BySync)
  }

  ghost predicate Stalled(s: Sys, f: nat) {
    && f in s.core.fibers && f != 0 && s.core.fibers[f].disposed && !s.core.fibers[f].life.live
    && !s.core.fibers[f].fixed.root
    && (forall t :: t in s.pool && Owns(s.pool[t], f) ==> Bypasses(s.pool[t].pc))
  }

  /** What is left of a list once what was torn down through its handles has gone. */
  function Left(c: Core, list: set<nat>): set<nat> {
    set e | e in list && Unfinished(c, e)
  }

  /** The list is what is left of an earlier one. */
  predicate Leaves(c: Core, f: nat, list: set<nat>) {
    && f in c.fibers && c.fibers[f].list == Left(c, list)
    && (forall e :: e in list ==> e in c.entries && e in c.store && c.store[e].provider == f)
  }

  lemma BypassesOn(c: Core, f: nat, pc: Pc, ch: Choice)
    requires Executes(c, Driver(f, pc), ch) && Bypasses(pc)
    requires c.fibers[f].disposed && !c.fibers[f].life.live && !c.fibers[f].fixed.root
    ensures var out := Exec(c, Driver(f, pc), ch);
      && f in out.core.fibers && out.core.fibers[f].disposed && !out.core.fibers[f].life.live
      && (out.cont.Some? ==> Owns(out.cont.value, f) && Bypasses(out.cont.value.pc))
  {
    hide CoreWf, FrameWf, ExecLoad, ExecRootUnload;
    match pc
    case PassStart => case SyncTop => case PassEnd =>
    case Unload(u, _) => match u { case UClaim => case UFinal => }
  }

  lemma StalledStep(s: Sys, t: nat, ch: Choice, s': Sys, f: nat)
    requires SysWf(s) && SysWf(s') && Grows(s.core, s'.core) && SingleOwner(s) && SingleOwner(s')
    requires Steps(s, t, ch, s') && Stalled(s, f)
    ensures Stalled(s', f)
  {
    hide CoreWf, FrameWf, Exec, Bypasses, SingleOwner, Stalled, Grows;
    if Owns(s.pool[t], f) { StalledOwn(s, t, ch, s', f); } else { StalledOther(s, t, ch, s', f); }
  }

  lemma StalledOwn(s: Sys, t: nat, ch: Choice, s': Sys, f: nat)
    requires SysWf(s) && SysWf(s') && Grows(s.core, s'.core) && SingleOwner(s) && SingleOwner(s')
    requires Steps(s, t, ch, s') && Stalled(s, f)
    requires Owns(s.pool[t], f)
    ensures Stalled(s', f)
  {
    hide CoreWf, FrameWf, Exec, PcWf, Bypasses, SingleOwner, Grows;
    GrowsFixed(s.core, s'.core, f);
    OnlyOwner(s, t, ch, s', f);
    BypassesOn(s.core, f, s.pool[t].pc, ch);
  }

  lemma StalledOther(s: Sys, t: nat, ch: Choice, s': Sys, f: nat)
    ensures SysWf(s) && Grows(s.core, s'.core) && Steps(s, t, ch, s') && Stalled(s, f) && !Owns(s.pool[t], f) ==>
      Stalled(s', f)
  {
    hide CoreWf, FrameWf, Exec, PcWf, Bypasses, Grows;
    if SysWf(s) && Grows(s.core, s'.core) && Steps(s, t, ch, s') && Stalled(s, f) && !Owns(s.pool[t], f) {
      var c, fr := s.core, s.pool[t];
      GrowsFixed(c, s'.core, f);
      RootFirst(c, fr);
      CallKinds(c, fr, ch);
      ContKinds(c, fr, ch);
      ForeignStep(c, fr, ch, f);
      Opens();
    }
  }

  lemma Opens()
    ensures Bypasses(PassStart)
  {}

  lemma LeavesStep(c: Core, out: Out, fr: Frame, d: Deed, f: nat, list: set<nat>)
    requires out.Ran? && Did(c, out, fr, d) && Grows(c, out.core) && Leaves(c, f, list)
    requires c.fibers[f].disposed && d != Clears(f)
    ensures Leaves(out.core, f, list)
  {
    hide KeepsHold, Holds, Drains, DrainsIt, HoldsIt, Drives, Entered, Linked, InTransit;
    match d
    case Nothing => case Enters(_, _, _) => case Ends(_, _) => case Turns(_, _) => case Clears(g) =>
  }

  lemma ClearsOwn(c: Core, fr: Frame, ch: Choice, g: nat)
    ensures FrameWf(c, fr) && DeedOf(c, fr, ch) == Clears(g) ==> Drives(fr, g) && (Owns(fr, g) ==> !Bypasses(fr.pc))
  {
    hide Unhandled, Accepts, FrameWf;
  }

  lemma StalledLeaves(s: Sys, t: nat, ch: Choice, s': Sys, f: nat, list: set<nat>)
    requires SysWf(s) && SysWf(s') && Grows(s.core, s'.core) && SingleOwner(s) && SingleOwner(s') && HoldersOk(s)
    requires Steps(s, t, ch, s') && Stalled(s, f) && Leaves(s.core, f, list)
    ensures Stalled(s', f) && Leaves(s'.core, f, list)
  {
    hide CoreWf, FrameWf, Exec, HolderKnows, Leaves, Did, Grows, SingleOwner, Bypasses, DeedOf;
    StalledStep(s, t, ch, s', f);
    var c, fr := s.core, s.pool[t];
    RootFirst(c, fr);
    Does(c, fr, ch);
    var d := DeedOf(c, fr, ch);
    if d.Clears? { ClearsOwn(c, fr, ch, d.f); }
    LeavesStep(c, Exec(c, fr, ch), fr, d, f, list);
  }

  lemma RootFirst(c: Core, fr: Frame)
    ensures FrameWf(c, fr) ==> fr.RootUnload? ==> fr.f == 0
  {
    hide UPcWf, PcWf;
  }

  lemma StalledCall(s: Sys, fr: Frame, s': Sys, f: nat)
    ensures SysWf(s) && Calls(s, fr, s') && Stalled(s, f) ==> Stalled(s', f)
  {
    hide CoreWf, FrameWf, Bypasses;
  }

  /** Marking an idle fiber that is not live stalls it with its list as it was. */
  lemma MarkStalls(s: Sys, t: nat, ch: Choice, s': Sys, f: nat)
    requires SysWf(s) && SingleOwner(s) && SingleOwner(s') && LifeOk(s, f) && TreeOk(s) && Steps(s, t, ch, s')
    requires f != 0
    requires s.pool[t] == Disposing(f, DsMark) && f in s.core.fibers && !s.core.fibers[f].disposed
    requires !s.core.fibers[f].drive.busy && !s.core.fibers[f].life.live
    ensures Stalled(s', f) && Leaves(s'.core, f, s.core.fibers[f].list)
  {
    hide CoreWf, SysWf, LifeOk;
    CoreFacts(s.core, f);
    assert ListOk(s.core, f) && !s'.core.fibers[f].drive.busy;
    NoOwners(s', f);
  }
}
