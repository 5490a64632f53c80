/** Quiescent consistency: at every point of every run a fiber whose recorded epoch no longer matches
    the registry is owed a transition pass, by its own `dirty` mark or by a notification in flight. */
module ReactiveQuiescence {
  import opened Options
  import opened Reactive
  import opened ReactiveWf
  import opened ReactiveDriver

  /** The premise of convergence: `notifyProvided` wakes dependents under the provider's own label. */
  predicate Aligned(c: Core) {
    forall at :: at in c.bindings && c.bindings[at] in c.store && c.store[c.bindings[at]].provider in c.fibers ==>
      LabelOf(c.fibers[c.store[c.bindings[at]].provider], c.store[c.bindings[at]].name) == at
  }

  /** What `resolveInjections` would find for one name now. */
  function Current(c: Core, fib: Fiber, name: Name): Option<nat> {
    Lookup(c, LabelOf(fib, name), name)
  }

  predicate Missing(c: Core, fib: Fiber, name: Name) {
    name in fib.fixed.inject && Current(c, fib, name).None?
  }

  predicate Fresh(c: Core, fib: Fiber, got: map<Name, nat>) {
    forall n :: n in got ==> n in fib.fixed.inject && Current(c, fib, n) == Some(got[n])
  }

  predicate KeysMatch(c: Core, fib: Fiber, keys: map<Name, Key>) {
    forall n :: n in fib.fixed.inject ==>
      n in keys && Current(c, fib, n).Some? && Current(c, fib, n).value in c.store
      && KeyOf(c, Current(c, fib, n).value) == keys[n]
  }

  /** The recorded epoch is what `resolveInjections` would compute now. */
  ghost predicate Settled(c: Core, fib: Fiber) {
    match fib.life.epoch
    case Inactive => exists n :: Missing(c, fib, n)
    case Gen(keys) => KeysMatch(c, fib, keys)
  }

  predicate CoversNames(c: Core, p: nat, names: set<Name>, fib: Fiber) {
    p in c.fibers && exists n :: n in names && n in fib.fixed.inject && LabelOf(c.fibers[p], n) == LabelOf(fib, n)
  }

  predicate CoversProvide(c: Core, f: nat, name: Name, at: Label, e: nat, fib: Fiber) {
    && at in c.bindings && c.bindings[at] == e && IsActive(c, f)
    && name in fib.fixed.inject && LabelOf(fib, name) == at
  }

  /** The activation is bound to request a pass of fiber `f`. */
  predicate Covers(c: Core, fr: Frame, f: nat) {
    f in c.fibers &&
    match fr
    case Refresh(g) => g == f
    case Wake(targets) => f in targets
    case Notify(name, at) => Wants(c, f, name, at)
    case NotifyNames(p, names) => CoversNames(c, p, names, c.fibers[f])
    case NotifyProvided(p) => CoversNames(c, p, ProvidedNames(c, p), c.fibers[f])
    case Provide(g, name, at, _, _, pv) =>
      (pv.PvSnapshot? || pv.PvNotify?) && CoversProvide(c, g, name, at, pv.e, c.fibers[f])
    case Load(_, _, _, _, _, ld) => (ld.LdInstall? || ld.LdStart?) && ld.f == f
    case _ => false
  }

  ghost predicate Owed(s: Sys, f: nat) {
    && f in s.core.fibers
    && (s.core.fibers[f].drive.dirty || exists t :: t in s.pool && Covers(s.core, s.pool[t], f))
  }

  /** The program counters that hold resolved bindings, those that hold a name that did not resolve, and
      those at which the recorded epoch must already be right. */
  predicate Resolves(pc: Pc) {
    pc.Resolve? || pc.ResolveState? || pc.DecideHit? || pc.ApplyLoad? || pc.LoadClaim? || pc.LoadState? || pc.LoadCheck?
        || pc.LoadCommit?
  }

  predicate Misses(pc: Pc) {
    pc.DecideMiss? || pc.ApplyUnload?
  }

  predicate Stands(pc: Pc) {
    || pc.Config? || pc.Body? || pc.BodyDone? || pc.BodyActive? || pc.FailMid? || pc.FailState? || pc.PassEnd?
    || (pc.Unload? && pc.caller != ByReload)
  }

  /** What the driver may rely on at each program counter, as long as no pass is owed. */
  ghost predicate DriverOk(c: Core, fib: Fiber, pc: Pc) {
    && (Resolves(pc) ==> Fresh(c, fib, pc.got))
    && ((pc.Resolve? || pc.ResolveState?) && pc.again ==> fib.life.epoch == Inactive)
    && (pc.ResolveState? ==> Registered(c, LabelOf(fib, pc.name), pc.name) == Some(pc.found))
    && (Misses(pc) ==> Missing(c, fib, pc.miss))
    && (Stands(pc) ==> Settled(c, fib))
  }

  /** A published fiber that no one disposed of: the fibers the registry keeps consistent. */
  predicate InService(c: Core, f: nat) {
    f in c.fibers && f != 0 && c.fibers[f].published && !c.fibers[f].disposed
  }

  ghost predicate Consistent(s: Sys, f: nat) {
    InService(s.core, f) && !Owed(s, f) ==>
      && (!s.core.fibers[f].drive.busy ==> Settled(s.core, s.core.fibers[f]))
      && (forall t :: t in s.pool && Owns(s.pool[t], f) ==> DriverOk(s.core, s.core.fibers[f], s.pool[t].pc))
  }

  ghost predicate AllConsistent(s: Sys) {
    forall f :: f in s.core.fibers ==> Consistent(s, f)
  }

  /** Every fiber in service is found by `snapshotFibers`. */
  ghost predicate AllAttached(c: Core) {
    forall f :: InService(c, f) ==> Attached(c, f)
  }

  // ----- lookups change only when a pass becomes owed -----

  /** For fiber `f`, the registry reads the same in both cores. */
  ghost predicate SameView(c: Core, c': Core, f: nat) {
    f in c.fibers &&
    forall n :: n in c.fibers[f].fixed.inject ==>
      && Current(c', c.fibers[f], n) == Current(c, c.fibers[f], n)
      && (forall e :: Registered(c, LabelOf(c.fibers[f], n), n) == Some(e) ==>
            Registered(c', LabelOf(c.fibers[f], n), n) == Some(e))
  }

  /** Identical registry and provider activity. */
  ghost predicate SameServices(c: Core, c': Core) {
    && c'.bindings == c.bindings
    && (forall e :: e in c.store ==> e in c'.store && c'.store[e] == c.store[e])
    && (forall g :: g in c.fibers ==> IsActive(c', g) == IsActive(c, g))
  }

  lemma SameServicesView(c: Core, c': Core, f: nat)
    ensures CoreWf(c) && SameServices(c, c') && f in c.fibers ==> SameView(c, c', f)
  {
    if CoreWf(c) && SameServices(c, c') && f in c.fibers {
      forall n | n in c.fibers[f].fixed.inject
        ensures Current(c', c.fibers[f], n) == Current(c, c.fibers[f], n)
        ensures Registered(c', LabelOf(c.fibers[f], n), n) == Registered(c, LabelOf(c.fibers[f], n), n)
      {
        var at := LabelOf(c.fibers[f], n);
        if at in c.bindings {
          assert SlotWf(c, at, c.bindings[at]);
          assert BindingWf(c, c.bindings[at], c.store[c.bindings[at]]);
        }
      }
      hide CoreWf;
    }
  }

  /** The provider `g` changed activity and announced it: whoever sees a difference is covered. */
  lemma FlipCovers(c: Core, c': Core, g: nat, f: nat)
    requires CoreWf(c) && Aligned(c) && f in c.fibers && g in c.fibers
    requires c'.bindings == c.bindings && c'.store == c.store && c'.fibers.Keys == c.fibers.Keys
    requires forall h :: h in c.fibers ==> c'.fibers[h].fixed == c.fibers[h].fixed
    requires forall h :: h in c.fibers && h != g ==> IsActive(c', h) == IsActive(c, h)
    ensures SameView(c, c', f) || Covers(c', NotifyProvided(g), f)
  {
    hide CoreWf, Covers;
    if !Covers(c', NotifyProvided(g), f) {
      forall n | n in c.fibers[f].fixed.inject
        ensures Current(c', c.fibers[f], n) == Current(c, c.fibers[f], n)
        ensures Registered(c', LabelOf(c.fibers[f], n), n) == Registered(c, LabelOf(c.fibers[f], n), n)
      {
        var at := LabelOf(c.fibers[f], n);
        if Registered(c, at, n).Some? { FlippedApart(c, c', g, f, n); }
      }
    }
  }

  /** A binding of the flipped provider that `f` wants is one it announces. */
  lemma FlippedApart(c: Core, c': Core, g: nat, f: nat, n: Name)
    requires CoreWf(c) && Aligned(c) && f in c.fibers && g in c.fibers && n in c.fibers[f].fixed.inject
    requires c'.bindings == c.bindings && c'.store == c.store && c'.fibers.Keys == c.fibers.Keys
    requires c'.fibers[f].fixed == c.fibers[f].fixed && c'.fibers[g].fixed == c.fibers[g].fixed
    requires Registered(c, LabelOf(c.fibers[f], n), n).Some? && !Covers(c', NotifyProvided(g), f)
    ensures var e := c.bindings[LabelOf(c.fibers[f], n)];
      e in c.store && c.store[e].provider in c.fibers && c.store[e].provider != g
  {
    hide CoreWf, Covers;
    var at := LabelOf(c.fibers[f], n);
    BindingFacts(c, c.bindings[at]);
    AlignedAt(c, at);
    if c.store[c.bindings[at]].provider == g { ProvidedCovers(c', g, at, f); }
  }

  /** A new registration is visible only to fibers its Provide still has to notify. */
  lemma RegisterCovers(c: Core, fr: Frame, e: nat, f: nat)
    ensures Fits(c, fr) && fr.Provide? && fr.pv == PvRegister(e) && fr.at !in c.bindings && f in c.fibers ==>
      var c' := c.(bindings := c.bindings[fr.at := e]);
      SameView(c, c', f) || Covers(c', fr.(pv := PvSnapshot(e)), f)
  {
    hide CoreWf, PcWf;
    if Fits(c, fr) && fr.Provide? && fr.pv == PvRegister(e) && fr.at !in c.bindings && f in c.fibers {
      var c' := c.(bindings := c.bindings[fr.at := e]);
      assert e in c.store && c.store[e].provider == fr.f && c.store[e].name == fr.name;
      hide CoreWf, FrameWf;
      if !Covers(c', fr.(pv := PvSnapshot(e)), f) {
        forall n | n in c.fibers[f].fixed.inject
          ensures Current(c', c.fibers[f], n) == Current(c, c.fibers[f], n)
          ensures Registered(c, LabelOf(c.fibers[f], n), n).Some? ==>
            Registered(c', LabelOf(c.fibers[f], n), n) == Registered(c, LabelOf(c.fibers[f], n), n)
        {
          RegisteredApart(c, fr.at, e, LabelOf(c.fibers[f], n), n);
        }
      }
    }
  }

  /** Filling a free slot changes no lookup but that of its own name, and that one only while the provider
      is active. */
  lemma RegisteredApart(c: Core, free: Label, e: nat, at: Label, n: Name)
    ensures free !in c.bindings && e in c.store ==>
      var c' := c.(bindings := c.bindings[free := e]);
      && (Registered(c, at, n).Some? ==> Registered(c', at, n) == Registered(c, at, n))
      && (at != free || n != c.store[e].name || !IsActive(c, c.store[e].provider) ==>
          Lookup(c', at, n) == Lookup(c, at, n))
  {}

  /** A withdrawn registration is noticed only by fibers its disposer notifies next. */
  lemma UnregisterCovers(c: Core, e: nat, f: nat)
    requires CoreWf(c) && e in c.store && f in c.fibers && c.store[e].at in c.bindings
    requires c.bindings[c.store[e].at] == e
    ensures var c' := c.(bindings := c.bindings - {c.store[e].at});
      SameView(c, c', f) || Covers(c', Notify(c.store[e].name, c.store[e].at), f)
  {
    hide CoreWf;
    var b := c.store[e];
    var c' := c.(bindings := c.bindings - {b.at});
    if !Wants(c, f, b.name, b.at) {
      forall n | n in c.fibers[f].fixed.inject
        ensures Current(c', c.fibers[f], n) == Current(c, c.fibers[f], n)
        ensures Registered(c', LabelOf(c.fibers[f], n), n) == Registered(c, LabelOf(c.fibers[f], n), n)
      {
        var at := LabelOf(c.fibers[f], n);
        if at == b.at { assert n != b.name; }
      }
    }
  }

  ghost predicate ViewOrCovered(c: Core, out: Out, f: nat)
  {
    || SameView(c, out.core, f)
    || (out.cont.Some? && Covers(out.core, out.cont.value, f))
    || (out.call.Some? && Covers(out.core, out.call.value, f))
  }

  /** Writing one fiber's lifecycle fields: seen by others only through its activity. */
  lemma WithView(c: Core, g: nat, fib: Fiber, f: nat)
    ensures CoreWf(c) && Aligned(c) && f in c.fibers && g in c.fibers && fib.fixed == c.fibers[g].fixed ==>
      SameView(c, With(c, g, fib), f)
      || (Announce(g, c.fibers[g].life.state, fib.life.state) == Some(NotifyProvided(g))
          && Covers(With(c, g, fib), NotifyProvided(g), f))
  {
    hide CoreWf, SameView, Covers;
    if CoreWf(c) && Aligned(c) && f in c.fibers && g in c.fibers && fib.fixed == c.fibers[g].fixed {
      var c' := With(c, g, fib);
      if (c.fibers[g].life.state == Active) == (fib.life.state == Active) {
        SameServicesView(c, c', f);
      } else {
        FlipCovers(c, c', g, f);
      }
    }
  }

  lemma DriverView(c: Core, g: nat, pc: Pc, ch: Choice, f: nat)
    requires CoreWf(c) && Aligned(c) && f in c.fibers && FrameWf(c, Driver(g, pc))
    requires ExecDriver(c, g, pc, ch).Ran?
    ensures ViewOrCovered(c, ExecDriver(c, g, pc, ch), f)
  {
    hide CoreWf, Aligned, SameView, Covers, DriverFiber, DriverNext, UnloadFiber, UnloadNext, PcWf, ExecUnload;
    if pc.Unload? {
      PcWfUnload(c, c.fibers[g], pc);
      UnloadView(c, g, pc.u, ch, f);
    } else {
      CoreFacts(c, g);
      DriverFiberWf(c, g, c.fibers[g], pc, ch);
      WithView(c, g, DriverFiber(c, c.fibers[g], pc, ch), f);
      if pc.GiveBackRefresh? { GiveBackWrites(c, c.fibers[g], pc, ch); }
    }
  }

  lemma GiveBackWrites(c: Core, fib: Fiber, pc: Pc, ch: Choice)
    ensures PcWf(c, fib, pc) && pc.GiveBackRefresh? ==> DriverFiber(c, fib, pc, ch) == fib
  {}

  lemma UnloadView(c: Core, g: nat, u: UPc, ch: Choice, f: nat)
    requires CoreWf(c) && Aligned(c) && f in c.fibers && PublishedFiber(c, g) && UPcWf(c, u)
    requires ExecUnload(c, g, u, ch).UMoved?
    ensures var out := ExecUnload(c, g, u, ch);
      SameView(c, out.core, f) || (out.call.Some? && Covers(out.core, out.call.value, f))
  {
    hide CoreWf, Aligned, SameView, Covers, UnloadFiber, UnloadNext, FiberWf;
    if u.UDrain? && u.todo != {} {
      SameServicesView(c, ExecUnload(c, g, u, ch).core, f);
    } else {
      CoreFacts(c, g);
      UnloadFiberWf(c, g, c.fibers[g], u);
      WithView(c, g, UnloadFiber(c.fibers[g], u), f);
    }
  }

  /** Steps that write neither the registry nor any fiber's state. */
  lemma QuietView(c: Core, fr: Frame, ch: Choice, f: nat)
    requires Executes(c, fr, ch) && f in c.fibers
    requires !fr.Driver? && !fr.RootUnload? && Exec(c, fr, ch).core.bindings == c.bindings
    ensures SameView(c, Exec(c, fr, ch).core, f)
  {
    hide CoreWf, FrameWf, Exec, SameView;
    ExecWf(c, fr, ch);
    forall g | g in c.fibers ensures IsActive(Exec(c, fr, ch).core, g) == IsActive(c, g) {
      ForeignStep(c, fr, ch, g);
    }
    SameServicesView(c, Exec(c, fr, ch).core, f);
  }

  lemma SameBindings(c: Core, fr: Frame, ch: Choice)
    ensures Executes(c, fr, ch) && !(fr.Provide? && fr.pv.PvRegister?) && !(fr.Disposer? && fr.un.UnRegister?) ==>
      Exec(c, fr, ch).core.bindings == c.bindings
  {
    hide CoreWf, PcWf, ExecDriver, ExecUnload, ExecProvide, ExecDisposer, ExecEffect, ExecLoad, ExecDisposing;
    hide DriverFiber;
    if Executes(c, fr, ch) && !(fr.Provide? && fr.pv.PvRegister?) && !(fr.Disposer? && fr.un.UnRegister?) {
      match fr
      case Refresh(_) =>
      case Driver(f, pc) => OwnStep(c, f, pc, ch);
      case RootUnload(f, u) => UnloadWrites(c, f, u, ch);
      case NotifyProvided(_) =>
      case NotifyNames(_, _) =>
      case Notify(_, _) =>
      case Wake(_) =>
      case Provide(_, _, _, _, _, _) => ProvideLight(c, fr, ch);
      case Effect(_, _, _) => EffectLight(c, fr, ch);
      case Disposer(_, _) => DisposerLight(c, fr, ch);
      case Release(_) => DisposerLight(c, fr, ch);
      case Disposing(f, ds) => DisposingKeeps(c, f, ds);
      case Restarting(_, _, _) =>
      case Load(_, _, _, _, _, _) => LoadBindings(c, fr, ch);
    }
  }

  lemma LoadBindings(c: Core, fr: Frame, ch: Choice)
    ensures Fits(c, fr) && fr.Load? ==> ExecLoad(c, fr, ch).core.bindings == c.bindings
  {
    hide CoreWf, Accepts, Fits;
    if Fits(c, fr) && fr.Load? {
      match fr.ld
      case LdGate => case LdClaim => case LdNew(_) => case LdEnter(_, _) =>
      case LdAttach(_, _, _) => case LdInstall(_, _, _) => case LdStart(_, _, _) => case LdDiscard(_, _) =>
    }
  }

  lemma ViewStep(c: Core, fr: Frame, ch: Choice, f: nat)
    ensures Executes(c, fr, ch) && f in c.fibers && Aligned(c) ==> ViewOrCovered(c, Exec(c, fr, ch), f)
  {
    hide CoreWf, Aligned, SameView, Covers, ExecDriver, ExecUnload, ExecLoad, PcWf, ExecNotify, ExecEffect;
    if Executes(c, fr, ch) && f in c.fibers && Aligned(c) {
      if fr.Driver? {
        DriverView(c, fr.f, fr.pc, ch, f);
      } else if fr.RootUnload? {
        UnloadView(c, fr.f, fr.u, ch, f);
      } else if fr.Provide? && fr.pv.PvRegister? && fr.at !in c.bindings {
        RegisterCovers(c, fr, fr.pv.e, f);
      } else if fr.Disposer? && fr.un.UnRegister? && c.store[fr.e].at in c.bindings
          && c.bindings[c.store[fr.e].at] == fr.e {
        UnregisterCovers(c, fr.e, f);
      } else {
        if !(fr.Provide? && fr.pv.PvRegister?) && !(fr.Disposer? && fr.un.UnRegister?) { SameBindings(c, fr, ch); }
        QuietView(c, fr, ch, f);
      }
    }
  }

  // ----- an owed pass stays owed -----

  /** The step's continuation or the activation it starts is bound to request a pass of `f`. */
  predicate HandsOn(out: Out, f: nat) {
    out.Ran? &&
    ((out.cont.Some? && Covers(out.core, out.cont.value, f)) || (out.call.Some? && Covers(out.core, out.call.value, f)))
  }

  predicate MarkedDirty(c: Core, f: nat) {
    f in c.fibers && c.fibers[f].drive.dirty
  }

  /** Coverage by a waiting activation survives a step, or the step's own frames take it over. */
  lemma WaitingCovers(c: Core, fr: Frame, ch: Choice, w: Frame, f: nat)
    requires Fits(c, fr) && FrameWf(c, w) && Exec(c, fr, ch).Ran? && Aligned(c)
    requires InService(c, f) && Covers(c, w, f)
    ensures Covers(Exec(c, fr, ch).core, w, f) || HandsOn(Exec(c, fr, ch), f)
  {
    hide Exec, FrameWf, CoreWf, Grows;
    var out := Exec(c, fr, ch);
    ExecWf(c, fr, ch);
    assert f in out.core.fibers && out.core.fibers[f].fixed == c.fibers[f].fixed by { GrowsFixed(c, out.core, f); }
    if w.NotifyProvided? {
      WaitingProvided(c, fr, ch, w.p, f);
    } else if w.Provide? {
      WaitingProvide(c, fr, ch, w, f);
    } else {
      if w.NotifyNames? { GrowsFixed(c, out.core, w.p); }
      hide CoreWf, Exec, FrameWf;
    }
  }

  lemma GrowsFixed(c: Core, c': Core, f: nat)
    ensures Grows(c, c') && f in c.fibers ==> f in c'.fibers && c'.fibers[f].fixed == c.fibers[f].fixed
  {
    if Grows(c, c') && f in c.fibers {
      assert SameStatics(c.fibers[f], c'.fibers[f]);
    }
  }

  lemma GrowsStore(c: Core, c': Core, e: nat)
    ensures Grows(c, c') && e in c.store ==> e in c'.store && c'.store[e] == c.store[e]
  {}

  lemma AlignedAt(c: Core, at: Label)
    ensures
      && Aligned(c) && at in c.bindings && c.bindings[at] in c.store && c.store[c.bindings[at]].provider in c.fibers
      ==> LabelOf(c.fibers[c.store[c.bindings[at]].provider], c.store[c.bindings[at]].name) == at
  {}

  /** A binding of `p` under `p`'s own label that `f` wants keeps `NotifyProvided(p)` covering `f`. */
  lemma ProvidedCovers(c: Core, p: nat, at: Label, f: nat)
    requires at in c.bindings && c.bindings[at] in c.store && p in c.fibers && f in c.fibers
    requires var b := c.store[c.bindings[at]];
      b.provider == p && b.name in c.fibers[f].fixed.inject
          && LabelOf(c.fibers[p], b.name) == LabelOf(c.fibers[f], b.name)
    ensures Covers(c, NotifyProvided(p), f)
  {
    assert c.store[c.bindings[at]].name in ProvidedNames(c, p);
  }

  lemma WaitingProvided(c: Core, fr: Frame, ch: Choice, p: nat, f: nat)
    requires Fits(c, fr) && p in c.fibers && Exec(c, fr, ch).Ran? && Aligned(c)
    requires f in c.fibers && Covers(c, NotifyProvided(p), f)
    ensures Covers(Exec(c, fr, ch).core, NotifyProvided(p), f) || HandsOn(Exec(c, fr, ch), f)
  {
    hide CoreWf, Exec, FrameWf, Grows, Aligned;
    var out := Exec(c, fr, ch);
    ExecWf(c, fr, ch);
    GrowsFixed(c, out.core, f);
    GrowsFixed(c, out.core, p);
    var n :| n in ProvidedNames(c, p) && n in c.fibers[f].fixed.inject
        && LabelOf(c.fibers[p], n) == LabelOf(c.fibers[f], n);
    var at :| at in c.bindings && c.bindings[at] in c.store && c.store[c.bindings[at]].provider == p
        && c.store[c.bindings[at]].name == n;
    AlignedAt(c, at);
    BindingsStep(c, fr, ch, at);
    GrowsStore(c, out.core, c.bindings[at]);
    if at in out.core.bindings && out.core.bindings[at] == c.bindings[at] {
      ProvidedCovers(out.core, p, at, f);
    } else {
      assert Wants(out.core, f, n, at);
    }
  }

  /** A slot keeps its binding, or the step is that binding's disposer, which notifies next. */
  lemma BindingsStep(c: Core, fr: Frame, ch: Choice, at: Label)
    ensures Executes(c, fr, ch) && at in c.bindings ==>
      var out := Exec(c, fr, ch);
      || (at in out.core.bindings && out.core.bindings[at] == c.bindings[at])
      || (c.bindings[at] in c.store && out.call == Some(Notify(c.store[c.bindings[at]].name, at)))
  {
    hide CoreWf, Executes, ExecDriver, FrameWf, ExecLoad, ExecRootUnload, ExecNotify;
    if fr.Disposer? && fr.un.UnRegister? {
      SlotKnown(c, at);
    } else if fr.Provide? && fr.pv.PvRegister? {
    } else {
      hide Exec;
      SameBindings(c, fr, ch);
    }
  }

  lemma SlotKnown(c: Core, at: Label)
    ensures CoreWf(c) && at in c.bindings ==> SlotWf(c, at, c.bindings[at])
  {
    hide FiberWf, BindingWf, RuntimeWf;
  }

  lemma WaitingProvide(c: Core, fr: Frame, ch: Choice, w: Frame, f: nat)
    requires Fits(c, fr) && FrameWf(c, w) && w.Provide? && Exec(c, fr, ch).Ran? && Aligned(c)
    requires f in c.fibers && Covers(c, w, f)
    ensures Covers(Exec(c, fr, ch).core, w, f) || HandsOn(Exec(c, fr, ch), f)
  {
    var e := w.pv.e;
    assert e in c.store && c.store[e].provider == w.f && c.store[e].name == w.name && w.f in c.fibers;
    assert c.bindings[w.at] == e && w.at in c.bindings && IsActive(c, w.f) && Wants(c, f, w.name, w.at);
    hide CoreWf, Exec, FrameWf, Grows, Covers, HandsOn;
    var out := Exec(c, fr, ch);
    ExecWf(c, fr, ch);
    GrowsFixed(c, out.core, f);
    GrowsFixed(c, out.core, w.f);
    BindingsStep(c, fr, ch, w.at);
    ActivityStep(c, fr, ch, w.f);
    AlignedAt(c, w.at);
    GrowsStore(c, out.core, e);
    hide Aligned;
    if w.at in out.core.bindings && out.core.bindings[w.at] == e {
      if IsActive(out.core, w.f) {
        CoversAgain(out.core, w, f);
      } else {
        ProvidedCovers(out.core, w.f, w.at, f);
        HandsCall(out, f);
      }
    } else {
      CoversNotify(out.core, w.name, w.at, f);
      HandsCall(out, f);
    }
  }

  lemma CoversAgain(c: Core, w: Frame, f: nat)
    requires w.Provide? && (w.pv.PvSnapshot? || w.pv.PvNotify?)
    requires w.at in c.bindings && c.bindings[w.at] == w.pv.e && IsActive(c, w.f) && Wants(c, f, w.name, w.at)
    ensures Covers(c, w, f)
  {}

  lemma CoversNotify(c: Core, name: Name, at: Label, f: nat)
    ensures Wants(c, f, name, at) ==> Covers(c, Notify(name, at), f)
  {}

  lemma HandsCall(out: Out, f: nat)
    ensures out.Ran? && out.call.Some? && Covers(out.core, out.call.value, f) ==> HandsOn(out, f)
  {}

  /** A provider that stops or starts being active announces it. */
  lemma ActivityStep(c: Core, fr: Frame, ch: Choice, p: nat)
    ensures Executes(c, fr, ch) && p in c.fibers ==>
      IsActive(Exec(c, fr, ch).core, p) == IsActive(c, p) || Exec(c, fr, ch).call == Some(NotifyProvided(p))
  {
    hide Executes, ExecUnload;
    if Executes(c, fr, ch) && p in c.fibers {
      if fr.Driver? && fr.f == p {
        DriverActivity(c, p, fr.pc, ch);
      } else if fr.RootUnload? && fr.f == p {
        UnloadActivity(c, p, fr.u, ch);
      } else {
        ForeignStep(c, fr, ch, p);
      }
    }
  }

  lemma UnloadActivity(c: Core, p: nat, u: UPc, ch: Choice)
    ensures p in c.fibers && UPcWf(c, u) && ExecUnload(c, p, u, ch).UMoved? ==>
      var out := ExecUnload(c, p, u, ch); IsActive(out.core, p) == IsActive(c, p) || out.call == Some(NotifyProvided(p))
  {
    hide UnloadFiber, UnloadNext;
  }

  lemma DriverActivity(c: Core, p: nat, pc: Pc, ch: Choice)
    ensures p in c.fibers && PcWf(c, c.fibers[p], pc) && ExecDriver(c, p, pc, ch).Ran? ==>
      var out := ExecDriver(c, p, pc, ch);
      IsActive(out.core, p) == IsActive(c, p)
      || out.call == Some(NotifyProvided(p))
  {
    hide UnloadFiber, UnloadNext, DriverFiber, DriverNext, PcWf, ExecUnload;
    if p in c.fibers && PcWf(c, c.fibers[p], pc) && ExecDriver(c, p, pc, ch).Ran? {
      if pc.Unload? {
        PcWfUnload(c, c.fibers[p], pc);
        UnloadActivity(c, p, pc.u, ch);
      } else if pc.GiveBackRefresh? {
        GiveBackWrites(c, c.fibers[p], pc, ch);
      }
    }
  }

  /** The executing activation hands its coverage on: to its continuation, to the activation it starts,
      or to the `dirty` mark. Only taking an idle fiber discharges it. */
  lemma RunningCovers(c: Core, fr: Frame, ch: Choice, f: nat)
    ensures Executes(c, fr, ch) && InService(c, f) && Attached(c, f) && Covers(c, fr, f) ==>
      (fr == Refresh(f) && !c.fibers[f].drive.busy) || MarkedDirty(Exec(c, fr, ch).core, f)
          || HandsOn(Exec(c, fr, ch), f)
  {
    hide CoreWf, ExecDriver, ExecUnload, ExecDisposer, ExecEffect, ExecDisposing, ExecRestarting, Accepts;
    hide Entered, Fits, ExecProvide;
    if Executes(c, fr, ch) && InService(c, f) && Attached(c, f) && Covers(c, fr, f) {
      match fr
      case Refresh(_) =>
      case NotifyProvided(p) =>
      case NotifyNames(p, names) =>
        var n :| n in names && n in c.fibers[f].fixed.inject && LabelOf(c.fibers[p], n) == LabelOf(c.fibers[f], n);
        if n != ch.name { assert n in names - {ch.name}; }
      case Notify(_, _) =>
      case Wake(_) =>
      case Provide(g, _, _, _, _, pv) => ProvideHandsOn(c, fr, ch, f);
      case Load(_, _, _, _, _, ld) =>
    }
  }

  lemma ProvideHandsOn(c: Core, fr: Frame, ch: Choice, f: nat)
    ensures Fits(c, fr) && fr.Provide? && InService(c, f) && Covers(c, fr, f) ==> HandsOn(ExecProvide(c, fr, ch), f)
  {
    hide CoreWf, Fits;
    if Fits(c, fr) && fr.Provide? && InService(c, f) && Covers(c, fr, f) {
      if fr.pv.PvSnapshot? {
        var c' := ExecProvide(c, fr, ch).core;
        assert IsActive(c', fr.f) && c'.fibers[f].fixed == c.fibers[f].fixed;
      }
    }
  }

  // ----- the driver's own steps -----

  /** Two records of fiber `f` that agree on what the promises read. */
  predicate SameRecord(c: Core, f: nat, was: Fiber, fib: Fiber) {
    f in c.fibers && was.fixed == c.fibers[f].fixed && fib.fixed == was.fixed && fib.life.epoch == was.life.epoch
  }

  /** In an unchanged view, epoch and program counter promises carry over. */
  lemma SettledView(c: Core, c': Core, f: nat, was: Fiber, fib: Fiber)
    ensures SameView(c, c', f) && Grows(c, c') && Settled(c, was) && SameRecord(c, f, was, fib) ==> Settled(c', fib)
  {
    if SameView(c, c', f) && Grows(c, c') && Settled(c, was) && SameRecord(c, f, was, fib) {
      match was.life.epoch
      case Inactive =>
        var n :| Missing(c, was, n);
        MissingView(c, c', f, was, fib, n);
      case Gen(keys) =>
        forall n | n in was.fixed.inject
          ensures Current(c', fib, n).Some? && Current(c', fib, n).value in c'.store
          ensures KeyOf(c', Current(c', fib, n).value) == keys[n]
        {
          assert Current(c', c.fibers[f], n) == Current(c, c.fibers[f], n);
          assert Current(c', fib, n) == Current(c, was, n);
        }
    }
  }

  lemma FreshView(c: Core, c': Core, f: nat, was: Fiber, fib: Fiber, got: map<Name, nat>)
    ensures SameView(c, c', f) && SameRecord(c, f, was, fib) && Fresh(c, was, got) ==> Fresh(c', fib, got)
  {
    if SameView(c, c', f) && SameRecord(c, f, was, fib) && Fresh(c, was, got) {
      forall n | n in got ensures Current(c', fib, n) == Some(got[n]) {
        assert Current(c, was, n) == Some(got[n]);
        assert Current(c', c.fibers[f], n) == Current(c, c.fibers[f], n);
      }
    }
  }

  lemma MissingView(c: Core, c': Core, f: nat, was: Fiber, fib: Fiber, name: Name)
    ensures SameView(c, c', f) && SameRecord(c, f, was, fib) && Missing(c, was, name) ==> Missing(c', fib, name)
  {
    if SameView(c, c', f) && SameRecord(c, f, was, fib) && Missing(c, was, name) {
      assert Current(c', c.fibers[f], name) == Current(c, c.fibers[f], name);
    }
  }

  lemma DriverOkView(c: Core, c': Core, f: nat, was: Fiber, fib: Fiber, pc: Pc)
    requires SameView(c, c', f) && Grows(c, c') && SameRecord(c, f, was, fib)
    requires PcWf(c, was, pc) && DriverOk(c, was, pc)
    ensures DriverOk(c', fib, pc)
  {
    assert pc.ResolveState? ==> pc.name in was.fixed.inject;
    hide Settled, Grows, PcWf, SameView, SameRecord, Fresh, Missing, Registered, Stands;
    if Resolves(pc) { FreshView(c, c', f, was, fib, pc.got); }
    if pc.ResolveState? { RegisteredView(c, c', f, was, fib, pc.name, pc.found); }
    if Misses(pc) { MissingView(c, c', f, was, fib, pc.miss); }
    if Stands(pc) { SettledView(c, c', f, was, fib); }
  }

  lemma RegisteredView(c: Core, c': Core, f: nat, was: Fiber, fib: Fiber, name: Name, found: nat)
    requires SameView(c, c', f) && SameRecord(c, f, was, fib) && name in was.fixed.inject
    requires Registered(c, LabelOf(was, name), name) == Some(found)
    ensures Registered(c', LabelOf(fib, name), name) == Some(found)
  {
    assert Current(c', c.fibers[f], name) == Current(c, c.fibers[f], name);
  }

  /** Complete fresh bindings settle the epoch that names them. */
  lemma FreshSettles(c: Core, fib: Fiber, fib': Fiber, got: map<Name, nat>)
    requires Fresh(c, fib, got) && GotWf(c, fib.fixed.inject, got) && got.Keys == fib.fixed.inject
    requires fib'.fixed == fib.fixed && fib'.life.epoch == Gen(KeysOf(c, got))
    ensures Settled(c, fib')
  {
    forall n | n in fib'.fixed.inject ensures Current(c, fib', n) == Some(got[n]) {
      assert Current(c, fib, n) == Some(got[n]);
    }
  }

  lemma MissSettles(c: Core, fib: Fiber, name: Name)
    ensures Missing(c, fib, name) ==>
      forall fib': Fiber :: fib'.fixed == fib.fixed && fib'.life.epoch == Inactive ==> Settled(c, fib')
  {
    if Missing(c, fib, name) {
      forall fib': Fiber | fib'.fixed == fib.fixed && fib'.life.epoch == Inactive ensures Settled(c, fib') {
        assert Missing(c, fib', name);
      }
    }
  }

  lemma SettledSame(c: Core, fib: Fiber, fib': Fiber)
    ensures Settled(c, fib) && fib'.fixed == fib.fixed && fib'.life.epoch == fib.life.epoch ==> Settled(c, fib')
  {
    if Settled(c, fib) && fib'.fixed == fib.fixed && fib'.life.epoch == fib.life.epoch {
      if fib.life.epoch == Inactive {
        assert exists n :: Missing(c, fib, n);
        var n :| Missing(c, fib, n);
        assert Missing(c, fib', n);
      }
    }
  }

  lemma DriverFixed(c: Core, fib: Fiber, pc: Pc, ch: Choice)
    ensures PcWf(c, fib, pc) ==> DriverFiber(c, fib, pc, ch).fixed == fib.fixed
  {
    hide PcWf, DriverLife;
    match pc
    case PassStart => case SyncTop => case Resolve(_, _, _) => case ResolveState(_, _, _, _, _) =>
    case DecideMiss(_) => case DecideHit(_) => case ApplyUnload(_) => case ApplyLoad(_) => case LoadClaim(_) =>
    case LoadState(_) => case LoadCheck(_, _) => case GiveBack => case GiveBackState => case GiveBackRefresh =>
    case LoadCommit(_) => case Config => case Body => case BodyDone => case BodyActive => case Unload(_, _) =>
    case ReloadMid => case FailMid => case FailState => case PassEnd =>
  }

  /** From a settled program counter the driver goes on settled, with the epoch it has. */
  lemma StandsOn(c: Core, fib: Fiber, pc: Pc, ch: Choice)
    ensures PcWf(c, fib, pc) && !pc.Unload? && Stands(pc) && !fib.disposed ==>
      var next, fib' := DriverNext(c, fib, pc, ch), DriverFiber(c, fib, pc, ch);
      fib'.life.epoch == fib.life.epoch && (next.Some? ==> Stands(next.value) || next.value.PassStart?)
  {
    hide PcWf, DriverDrive, DriverErr;
  }

  /** A miss ends with the inactive epoch, either as it was or after an unload is decided. */
  lemma MissesOn(c: Core, fib: Fiber, pc: Pc, ch: Choice)
    ensures PcWf(c, fib, pc) && Misses(pc) && !fib.disposed ==>
      var next, epoch := DriverNext(c, fib, pc, ch), DriverFiber(c, fib, pc, ch).life.epoch;
      || next == Some(ApplyUnload(pc.miss))
      || (epoch == Inactive && (next == Some(PassEnd) || next == Some(Unload(UClaim, BySync))))
  {
    hide PcWf, DriverDrive, DriverErr;
  }

  /** Resolved bindings stay fresh until the epoch that names them is committed. */
  lemma ResolvesOn(c: Core, fib: Fiber, pc: Pc, ch: Choice)
    ensures PcWf(c, fib, pc) && !pc.Resolve? && !pc.ResolveState? && Resolves(pc) && !fib.disposed ==>
      var next, epoch := DriverNext(c, fib, pc, ch), DriverFiber(c, fib, pc, ch).life.epoch;
      || (next.Some? && !next.value.Resolve? && !next.value.ResolveState? && Resolves(next.value)
          && next.value.got == pc.got)
      || (epoch == Gen(KeysOf(c, pc.got)) && (next == Some(PassEnd) || next == Some(Config)))
      || next == Some(Unload(UClaim, ByReload)) || next == Some(GiveBack)
  {
    hide DriverDrive, DriverErr, Live, PcWf;
  }

  /** One lookup of `resolveInjections`: first the slot. */
  lemma LookupOn(c: Core, fib: Fiber, pc: Pc, ch: Choice)
    requires PcWf(c, fib, pc) && pc.Resolve? && Chooses(pc, ch) && DriverOk(c, fib, pc)
    ensures var next, fib' := DriverNext(c, fib, pc, ch), DriverFiber(c, fib, pc, ch);
      fib'.life.epoch == fib.life.epoch && next.Some? && DriverOk(c, fib', next.value)
  {
    hide UPcWf, KeysOf;
    var next, fib' := DriverNext(c, fib, pc, ch), DriverFiber(c, fib, pc, ch);
    assert fib'.fixed == fib.fixed && fib'.life.epoch == fib.life.epoch by { DriverFixed(c, fib, pc, ch); }
    if next.value == AfterMiss(ch.name, pc.again) && !Resolves(next.value) {
      assert Missing(c, fib', ch.name);
      MissSettles(c, fib, ch.name);
    } else {
      forall n | n in next.value.got ensures n in fib'.fixed.inject && Current(c, fib', n) == Some(next.value.got[n]) {
        assert Current(c, fib, n) == Some(pc.got[n]);
      }
    }
  }

  /** Then the state of what is in it. */
  lemma LookedOn(c: Core, fib: Fiber, pc: Pc, ch: Choice)
    requires PcWf(c, fib, pc) && pc.ResolveState? && DriverOk(c, fib, pc)
    ensures var next, fib' := DriverNext(c, fib, pc, ch), DriverFiber(c, fib, pc, ch);
      fib'.life.epoch == fib.life.epoch && next.Some? && DriverOk(c, fib', next.value)
  {
    hide UPcWf, KeysOf;
    var next, fib' := DriverNext(c, fib, pc, ch), DriverFiber(c, fib, pc, ch);
    assert fib'.fixed == fib.fixed && fib'.life.epoch == fib.life.epoch by { DriverFixed(c, fib, pc, ch); }
    if Live(c, pc.found) {
      forall n | n in next.value.got ensures n in fib'.fixed.inject && Current(c, fib', n) == Some(next.value.got[n]) {
        if n in pc.got { assert Current(c, fib, n) == Some(pc.got[n]); }
      }
    } else {
      assert Missing(c, fib', pc.name);
      MissSettles(c, fib, pc.name);
    }
  }
  /** The other sections establish what the next one relies on, or nothing is relied on. */
  lemma OpensOn(c: Core, fib: Fiber, pc: Pc, ch: Choice)
    requires PcWf(c, fib, pc) && !Stands(pc) && !Misses(pc) && !Resolves(pc) && !pc.Unload?
    requires !pc.GiveBackRefresh? && !fib.disposed && !fib.fixed.root
    ensures var next, fib' := DriverNext(c, fib, pc, ch), DriverFiber(c, fib, pc, ch);
      next.Some?
      && DriverOk(c, fib', next.value)
  {
    hide Settled, DriverDrive, DriverErr, PcWf;
    match pc
    case PassStart => case SyncTop => case GiveBack => case GiveBackState => case ReloadMid =>
  }

  lemma BoundWf(c: Core, fib: Fiber, pc: Pc)
    ensures PcWf(c, fib, pc) && Resolves(pc) && !pc.Resolve? && !pc.ResolveState? ==>
      GotWf(c, fib.fixed.inject, pc.got) && pc.got.Keys == fib.fixed.inject
  {}

  lemma MissingSame(c: Core, fib: Fiber, fib': Fiber, name: Name)
    ensures Missing(c, fib, name) && fib'.fixed == fib.fixed ==> Missing(c, fib', name)
  {}

  /** What the driver goes on with is promised; when it lets the fiber go, the epoch is right. */
  ghost predicate Advanced(c: Core, fib: Fiber, next: Option<Pc>) {
    if next.Some? then DriverOk(c, fib, next.value) else Settled(c, fib)
  }

  lemma StandsAdvance(c: Core, fib: Fiber, pc: Pc, ch: Choice)
    ensures PcWf(c, fib, pc) && !pc.Unload? && Stands(pc) && !fib.disposed && DriverOk(c, fib, pc) ==>
      Advanced(c, DriverFiber(c, fib, pc, ch), DriverNext(c, fib, pc, ch))
  {
    hide Settled, PcWf, DriverNext, DriverFiber, Chooses, GotWf, Fresh, Missing, Registered;
    if PcWf(c, fib, pc) && !pc.Unload? && Stands(pc) && !fib.disposed && DriverOk(c, fib, pc) {
      var fib' := DriverFiber(c, fib, pc, ch);
      DriverFixed(c, fib, pc, ch);
      StandsOn(c, fib, pc, ch);
      SettledSame(c, fib, fib');
    }
  }

  lemma MissesAdvance(c: Core, fib: Fiber, pc: Pc, ch: Choice)
    ensures PcWf(c, fib, pc) && Misses(pc) && !fib.disposed && DriverOk(c, fib, pc) ==>
      Advanced(c, DriverFiber(c, fib, pc, ch), DriverNext(c, fib, pc, ch))
  {
    hide Settled, PcWf, DriverNext, DriverFiber, Chooses, GotWf, Fresh, Missing, Registered;
    if PcWf(c, fib, pc) && Misses(pc) && !fib.disposed && DriverOk(c, fib, pc) {
      var fib' := DriverFiber(c, fib, pc, ch);
      DriverFixed(c, fib, pc, ch);
      MissesOn(c, fib, pc, ch);
      MissSettles(c, fib, pc.miss);
      MissingSame(c, fib, fib', pc.miss);
    }
  }

  lemma ResolvesAdvance(c: Core, fib: Fiber, pc: Pc, ch: Choice)
    requires PcWf(c, fib, pc) && !pc.Resolve? && !pc.ResolveState? && Resolves(pc) && !fib.disposed
    requires DriverOk(c, fib, pc)
    ensures Advanced(c, DriverFiber(c, fib, pc, ch), DriverNext(c, fib, pc, ch))
  {
    hide Settled, PcWf, DriverNext, DriverFiber, Chooses, GotWf, Fresh, Missing, Registered;
    var fib' := DriverFiber(c, fib, pc, ch);
    DriverFixed(c, fib, pc, ch);
    BoundWf(c, fib, pc);
    ResolvesOn(c, fib, pc, ch);
    if fib'.life.epoch == Gen(KeysOf(c, pc.got)) { FreshSettles(c, fib, fib', pc.got); }
    FreshSame(c, fib, fib', pc.got);
  }

  /** The next promise, read in the old registry. The driver relies on nothing it did not establish. */
  lemma DriverAdvance(c: Core, fib: Fiber, pc: Pc, ch: Choice)
    requires PcWf(c, fib, pc) && !pc.Unload? && !pc.GiveBackRefresh? && Chooses(pc, ch) && !fib.disposed
    requires !fib.fixed.root && DriverOk(c, fib, pc)
    ensures Advanced(c, DriverFiber(c, fib, pc, ch), DriverNext(c, fib, pc, ch))
  {
    hide Settled, PcWf, DriverNext, DriverFiber, Chooses, DriverOk;
    if Stands(pc) {
      StandsAdvance(c, fib, pc, ch);
    } else if Misses(pc) {
      MissesAdvance(c, fib, pc, ch);
    } else if pc.Resolve? {
      LookupOn(c, fib, pc, ch);
    } else if pc.ResolveState? {
      LookedOn(c, fib, pc, ch);
    } else if Resolves(pc) {
      ResolvesAdvance(c, fib, pc, ch);
    } else {
      OpensOn(c, fib, pc, ch);
    }
  }

  lemma FreshSame(c: Core, fib: Fiber, fib': Fiber, got: map<Name, nat>)
    ensures Fresh(c, fib, got) && fib'.fixed == fib.fixed ==> Fresh(c, fib', got)
  {
    if Fresh(c, fib, got) && fib'.fixed == fib.fixed {
      forall n | n in got ensures Current(c, fib', n) == Some(got[n]) { assert Current(c, fib, n) == Some(got[n]); }
    }
  }

  /** The same for the steps of `unload`: it writes no epoch, and only `reload` resolves afterwards. */
  lemma UnloadAdvance(c: Core, fib: Fiber, pc: Pc, next: Pc)
    ensures
      && pc.Unload? && DriverOk(c, fib, pc)
      && ((next.Unload? && next.caller == pc.caller) || next == AfterUnload(pc.caller))
      ==> DriverOk(c, fib, next)
  {}

  // ----- the step -----

  /** An owed pass stays owed until the fiber's driver starts one. */
  lemma OwedKept(s: Sys, t: nat, ch: Choice, s': Sys, f: nat)
    requires SysWf(s) && Steps(s, t, ch, s') && Aligned(s.core) && AllAttached(s.core)
    requires InService(s.core, f) && Owed(s, f)
    requires !(s.pool[t] == Refresh(f) && !s.core.fibers[f].drive.busy) && s.pool[t] != Driver(f, PassStart)
    ensures Owed(s', f)
  {
    hide CoreWf, FrameWf, Exec, Covers, HandsOn;
    var c, fr, out := s.core, s.pool[t], Exec(s.core, s.pool[t], ch);
    assert s.next !in s.pool && FrameWf(c, fr);
    DirtyKept(c, fr, ch, f);
    if c.fibers[f].drive.dirty {
      assert MarkedDirty(out.core, f);
    } else {
      var k :| k in s.pool && Covers(c, s.pool[k], f);
      if k == t {
        RunningCovers(c, fr, ch, f);
      } else {
        WaitingCovers(c, fr, ch, s.pool[k], f);
        assert k in s'.pool && s'.pool[k] == s.pool[k];
        if Covers(s'.core, s'.pool[k], f) { CoversKnown(s'.core, f); }
      }
      if HandsOn(out, f) {
        HandedOn(s, t, out, f);
      }
    }
  }

  lemma HandedOn(s: Sys, t: nat, out: Out, f: nat)
    ensures HandsOn(out, f) && t in s.pool && s.next !in s.pool ==> Owed(After(s, t, out), f)
  {
    hide Covers;
    if HandsOn(out, f) && t in s.pool && s.next !in s.pool {
      var s' := After(s, t, out);
      assert f in s'.core.fibers by {
        assert forall fr :: Covers(s'.core, fr, f) ==> f in s'.core.fibers by { CoversKnown(s'.core, f); }
      }
      if out.cont.Some? && Covers(out.core, out.cont.value, f) {
        assert t in s'.pool && s'.pool[t] == out.cont.value;
      } else {
        assert s.next in s'.pool && s'.pool[s.next] == out.call.value;
      }
    }
  }

  lemma CoversKnown(c: Core, f: nat)
    ensures forall fr :: Covers(c, fr, f) ==> f in c.fibers
  {}

  /** Only the start of a pass clears the rerun mark. */
  lemma DirtyKept(c: Core, fr: Frame, ch: Choice, f: nat)
    ensures Executes(c, fr, ch) && f in c.fibers && f != 0 && fr != Driver(f, PassStart) ==>
      MarkedDirty(c, f) ==> MarkedDirty(Exec(c, fr, ch).core, f)
  {
    hide Exec, DriverFiber, PcWf;
    if Executes(c, fr, ch) && f in c.fibers && f != 0 && fr != Driver(f, PassStart) {
      if Owns(fr, f) {
        OwnStep(c, f, fr.pc, ch);
        DriverDirty(c, c.fibers[f], fr.pc, ch);
      } else {
        ForeignStep(c, fr, ch, f);
      }
    }
  }

  lemma DriverDirty(c: Core, fib: Fiber, pc: Pc, ch: Choice)
    ensures PcWf(c, fib, pc) && pc != PassStart ==>
      DriverFiber(c, fib, pc, ch).drive.dirty == fib.drive.dirty
      && (pc.Unload? ==> UnloadFiber(fib, pc.u).drive.dirty == fib.drive.dirty)
  {
    hide PcWf, DriverLife;
    match pc
    case PassStart => case SyncTop => case Resolve(_, _, _) => case ResolveState(_, _, _, _, _) =>
    case DecideMiss(_) => case DecideHit(_) => case ApplyUnload(_) => case ApplyLoad(_) => case LoadClaim(_) =>
    case LoadState(_) => case LoadCheck(_, _) => case GiveBack => case GiveBackState => case GiveBackRefresh =>
    case LoadCommit(_) => case Config => case Body => case BodyDone => case BodyActive =>
    case Unload(u, _) =>
      match u {
        case UClaim => case UState => case UClear => case UDrain(_) => case UReset => case UPending => case UFinal =>
      }
    case ReloadMid => case FailMid => case FailState => case PassEnd =>
  }

  /** A fiber enters service only by being attached, and then its load has yet to refresh it. */
  lemma EntersService(s: Sys, t: nat, ch: Choice, s': Sys, f: nat)
    ensures SysWf(s) && Steps(s, t, ch, s') && InService(s'.core, f) ==> InService(s.core, f) || Owed(s', f)
  {
    hide Exec, FrameWf, CoreWf, Covers;
    if SysWf(s) && Steps(s, t, ch, s') && InService(s'.core, f) {
      var c, fr, out := s.core, s.pool[t], Exec(s.core, s.pool[t], ch);
      if f !in c.fibers {
        Newborn(c, fr, ch, f);
      } else {
        NotUndisposed(c, fr, ch, f);
        if !c.fibers[f].published {
          Publishes(c, fr, ch, f);
          hide CoreWf, FrameWf, Exec, Covers;
          HandedOn(s, t, out, f);
        }
      }
    }
  }

  lemma NotUndisposed(c: Core, fr: Frame, ch: Choice, f: nat)
    ensures Executes(c, fr, ch) && f in c.fibers && f != 0 ==>
      f in Exec(c, fr, ch).core.fibers && (c.fibers[f].disposed ==> Exec(c, fr, ch).core.fibers[f].disposed)
  {
    hide Exec, DriverFiber, PcWf;
    if Executes(c, fr, ch) && f in c.fibers && f != 0 {
      if Owns(fr, f) {
        OwnStep(c, f, fr.pc, ch);
        DriverDisposed(c, c.fibers[f], fr.pc, ch);
      } else {
        ForeignStep(c, fr, ch, f);
      }
    }
  }

  /** No section of the driver or of `unload` touches `disposed` or `published`. */
  lemma DriverDisposed(c: Core, fib: Fiber, pc: Pc, ch: Choice)
    ensures PcWf(c, fib, pc) ==>
      DriverFiber(c, fib, pc, ch).disposed == fib.disposed && DriverFiber(c, fib, pc, ch).published == fib.published
      && (pc.Unload? ==>
          UnloadFiber(fib, pc.u).disposed == fib.disposed && UnloadFiber(fib, pc.u).published == fib.published)
  {
    hide PcWf, DriverLife;
    match pc
    case PassStart => case SyncTop => case Resolve(_, _, _) => case ResolveState(_, _, _, _, _) =>
    case DecideMiss(_) => case DecideHit(_) => case ApplyUnload(_) => case ApplyLoad(_) => case LoadClaim(_) =>
    case LoadState(_) => case LoadCheck(_, _) => case GiveBack => case GiveBackState => case GiveBackRefresh =>
    case LoadCommit(_) => case Config => case Body => case BodyDone => case BodyActive =>
    case Unload(u, _) =>
      match u {
        case UClaim => case UState => case UClear => case UDrain(_) => case UReset => case UPending => case UFinal =>
      }
    case ReloadMid => case FailMid => case FailState => case PassEnd =>
  }

  lemma Publishes(c: Core, fr: Frame, ch: Choice, f: nat)
    ensures Executes(c, fr, ch) && InService(Exec(c, fr, ch).core, f) && f in c.fibers && !c.fibers[f].published ==>
      HandsOn(Exec(c, fr, ch), f)
  {
    hide ExecLoad, HandsOn, ExecDriver;
    if Executes(c, fr, ch) && InService(Exec(c, fr, ch).core, f) && f in c.fibers && !c.fibers[f].published {
      if fr.Load? {
        PublishesLoad(c, fr, ch, f);
      } else if !Owns(fr, f) {
        ForeignStep(c, fr, ch, f);
      }
    }
  }

  lemma PublishesLoad(c: Core, fr: Frame, ch: Choice, f: nat)
    ensures
      && Fits(c, fr) && fr.Load? && f in c.fibers && !c.fibers[f].published
      && InService(ExecLoad(c, fr, ch).core, f)
      ==> HandsOn(ExecLoad(c, fr, ch), f)
  {
    hide CoreWf, Fits;
    LoadFibers(c, fr, ch);
    if f == c.counter + 1 { CoreFacts(c, f); }
  }

  // ----- quiescent consistency is invariant -----

  lemma ConsistentStep(s: Sys, t: nat, ch: Choice, s': Sys, f: nat)
    requires SysWf(s) && SingleOwner(s) && Aligned(s.core) && AllAttached(s.core) && AllConsistent(s)
    requires Steps(s, t, ch, s') && SysWf(s') && Grows(s.core, s'.core) && SingleOwner(s')
    requires f in s'.core.fibers
    ensures Consistent(s', f)
  {
    hide CoreWf, FrameWf, Exec, Covers, Aligned, AllAttached, Settled, DriverOk, Grows, SameView;
    if InService(s'.core, f) && !Owed(s', f) {
      EntersService(s, t, ch, s', f);
      assert s.next !in s.pool;
      var fr := s.pool[t];
      if (fr == Refresh(f) && !s.core.fibers[f].drive.busy) || fr == Driver(f, PassStart) {
        TakesFiber(s, t, ch, s', f);
      } else {
        if Owed(s, f) { OwedKept(s, t, ch, s', f); }
        assert Consistent(s, f);
        ViewStep(s.core, fr, ch, f);
        if HandsOn(Exec(s.core, fr, ch), f) { HandedOn(s, t, Exec(s.core, fr, ch), f); }
        if Owns(fr, f) { OwnConsistent(s, t, ch, s', f); } else { OtherConsistent(s, t, ch, s', f); }
      }
    }
  }

  /** Taking an idle fiber or starting a pass: the driver will look at everything again. */
  lemma TakesFiber(s: Sys, t: nat, ch: Choice, s': Sys, f: nat)
    requires SysWf(s) && Steps(s, t, ch, s') && SingleOwner(s) && SingleOwner(s') && f in s.core.fibers
    requires f in s'.core.fibers
    requires (s.pool[t] == Refresh(f) && !s.core.fibers[f].drive.busy) || s.pool[t] == Driver(f, PassStart)
    ensures s'.core.fibers[f].drive.busy
    ensures forall k :: k in s'.pool && Owns(s'.pool[k], f) ==> DriverOk(s'.core, s'.core.fibers[f], s'.pool[k].pc)
  {
    hide CoreWf, FrameWf, Exec, DriverOk;
    TakesOn(s.core, s.pool[t], ch, f);
    assert t in s'.pool && Owns(s'.pool[t], f);
    assert HasOwner(s'.pool, f);
    OpenOk(s'.core, s'.core.fibers[f], s'.pool[t].pc);
  }

  lemma OpenOk(c: Core, fib: Fiber, pc: Pc)
    ensures (pc == PassStart || pc == SyncTop) ==> DriverOk(c, fib, pc)
  {}

  lemma TakesOn(c: Core, fr: Frame, ch: Choice, f: nat)
    ensures
      && Fits(c, fr) && f in c.fibers
      && ((fr == Refresh(f) && !c.fibers[f].drive.busy) || fr == Driver(f, PassStart))
      ==> Exec(c, fr, ch).Ran? && Exec(c, fr, ch).cont in {Some(Driver(f, PassStart)), Some(Driver(f, SyncTop))}
  {
    hide CoreWf, FrameWf, ExecLoad, ExecRootUnload, ExecNotify, DriverFiber;
  }

  /** A step of another activation that leaves `f` unowed changes nothing its promises read. */
  lemma OtherConsistent(s: Sys, t: nat, ch: Choice, s': Sys, f: nat)
    requires SysWf(s) && Steps(s, t, ch, s') && SingleOwner(s) && InService(s.core, f)
    requires InService(s'.core, f) && !Owns(s.pool[t], f)
    requires !Owed(s, f) && !Owed(s', f) && Consistent(s, f) && SameView(s.core, s'.core, f)
    requires Grows(s.core, s'.core)
    requires !(s.pool[t] == Refresh(f) && !s.core.fibers[f].drive.busy) && s.next !in s.pool
    ensures Consistent(s', f)
  {
    hide CoreWf, Exec, Covers, Grows, SameView, Settled, DriverOk, PcWf, ExecRefresh;
    var c, fr, c' := s.core, s.pool[t], s'.core;
    assert FrameWf(c, fr);
    ForeignStep(c, fr, ch, f);
    CallKinds(c, fr, ch);
    ContKinds(c, fr, ch);
    var was, fib := c.fibers[f], c'.fibers[f];
    if fr == Refresh(f) { RefreshMarks(c, f); }
    if !fib.drive.busy && Settled(c, was) { SettledView(c, c', f, was, fib); }
    forall k | k in s'.pool && Owns(s'.pool[k], f) ensures DriverOk(c', fib, s'.pool[k].pc) {
      assert k in s.pool && s.pool[k] == s'.pool[k];
      assert FrameWf(c, s.pool[k]);
      DriverOkView(c, c', f, was, fib, s.pool[k].pc);
    }
  }

  lemma RefreshMarks(c: Core, f: nat)
    ensures f in c.fibers && c.fibers[f].drive.busy ==> MarkedDirty(ExecRefresh(c, f).core, f)
  {}

  predicate UnloadGoes(fib: Fiber, pc: Pc, cont: Option<Frame>)
    requires pc.Unload?
  {
    && cont.Some? && cont.value.Driver?
    && (if pc.u.UDrain? && pc.u.todo != {}
        then cont.value.pc.Unload? && cont.value.pc.u.UDrain? && cont.value.pc.caller == pc.caller
        else cont.value.pc == (if UnloadNext(fib, pc.u).Some? then Unload(UnloadNext(fib, pc.u).value, pc.caller)
            else AfterUnload(pc.caller)))
  }

  /** Where the driver's frame goes. */
  lemma OwnNext(c: Core, f: nat, pc: Pc, ch: Choice)
    ensures Executes(c, Driver(f, pc), ch) ==>
      && (var cont := Exec(c, Driver(f, pc), ch).cont;
         if pc.Unload? then
           && cont.Some? && cont.value.Driver? && cont.value.f == f
           && ((cont.value.pc.Unload? && cont.value.pc.caller == pc.caller) || cont.value.pc == AfterUnload(pc.caller))
         else Chooses(pc, ch) && cont == DriverFrame(f, DriverNext(c, c.fibers[f], pc, ch)))
      && (pc.GiveBackRefresh? ==> Exec(c, Driver(f, pc), ch).call == Some(Refresh(f)))
      && (pc.Unload? ==> PcWf(c, c.fibers[f], pc) && UnloadGoes(c.fibers[f], pc, Exec(c, Driver(f, pc), ch).cont))
  {
    hide CoreWf, DriverFiber, DriverNext, UnloadFiber, UnloadNext, PcWf, Chooses, ExecLoad, FrameWf, ExecNotify;
    hide ExecProvide, ExecEffect, ExecDisposer, ExecDisposing, ExecUnload;
    if pc.Unload? { UnloadFrames(c, f, pc, ch); }
  }

  lemma UnloadFrames(c: Core, f: nat, pc: Pc, ch: Choice)
    ensures f in c.fibers && pc.Unload? && PcWf(c, c.fibers[f], pc) && ExecDriver(c, f, pc, ch).Ran? ==>
      UnloadGoes(c.fibers[f], pc, ExecDriver(c, f, pc, ch).cont)
  {
    hide UnloadFiber, UnloadNext, PcWf, DriverFiber, DriverNext;
  }

  lemma UnloadNextWf(c: Core, f: nat, pc: Pc, ch: Choice)
    requires Fits(c, Driver(f, pc)) && pc.Unload? && Exec(c, Driver(f, pc), ch).Ran?
    requires Exec(c, Driver(f, pc), ch).cont.Some? && Exec(c, Driver(f, pc), ch).cont.value.Driver?
    ensures PcWf(c, c.fibers[f], Exec(c, Driver(f, pc), ch).cont.value.pc)
  {
    hide CoreWf, UnloadFiber, UnloadNext, ExecLoad;
    var u := pc.u;
    if !(u.UDrain? && u.todo != {}) {
      CoreFacts(c, f);
      UnloadFiberWf(c, f, c.fibers[f], u);
    }
  }

  lemma UnloadKeepsEpoch(fib: Fiber, u: UPc)
    ensures UnloadFiber(fib, u).life.epoch == fib.life.epoch && UnloadFiber(fib, u).fixed == fib.fixed
  {
    match u
    case UClaim => case UState => case UClear => case UDrain(_) => case UReset => case UPending => case UFinal =>
  }

  /** A step of the fiber's own driver establishes its next promise. */
  lemma OwnConsistent(s: Sys, t: nat, ch: Choice, s': Sys, f: nat)
    requires SysWf(s) && Steps(s, t, ch, s') && SingleOwner(s) && SingleOwner(s') && SysWf(s')
    requires InService(s.core, f) && InService(s'.core, f) && Owns(s.pool[t], f) && s.next !in s.pool
    requires !Owed(s, f) && !Owed(s', f) && Consistent(s, f) && SameView(s.core, s'.core, f)
    requires Grows(s.core, s'.core)
    ensures Consistent(s', f)
  {
    hide CoreWf, Exec, Covers, Grows, SameView, Settled;
    hide DriverOk, PcWf, DriverNext, DriverFiber, UnloadFiber, UnloadNext;
    var c, pc, c' := s.core, s.pool[t].pc, s'.core;
    var was, fib := c.fibers[f], c'.fibers[f];
    assert FrameWf(c, s.pool[t]);
    OwnStep(c, f, pc, ch);
    OwnNext(c, f, pc, ch);
    assert !was.fixed.root by { CoreFacts(c, f); }
    DriverFixed(c, was, pc, ch);
    var cont := Exec(c, s.pool[t], ch).cont;
    if pc.Unload? {
      UnloadKeepsEpoch(was, pc.u);
      UnloadAdvance(c, was, pc, cont.value.pc);
      UnloadNextWf(c, f, pc, ch);
      DriverOkView(c, c', f, was, fib, cont.value.pc);
      OnlyOwner(s, t, ch, s', f);
    } else if pc.GiveBackRefresh? {
      assert Covers(c', Refresh(f), f) by { RefreshCovers(c', f); }
      HandedOn(s, t, Exec(c, s.pool[t], ch), f);
    } else {
      DriverAdvance(c, was, pc, ch);
      DriverNextWf(c, f, was, pc, ch);
      var next := DriverNext(c, was, pc, ch);
      if next.Some? {
        PcWfFixed(c, was, fib, next.value);
        DriverOkView(c, c', f, fib, fib, next.value);
        DriverBusy(c, was, pc, ch);
        assert HasOwner(s.pool, f);
      } else {
        SettledView(c, c', f, fib, fib);
      }
      OnlyOwner(s, t, ch, s', f);
    }
  }

  lemma RefreshCovers(c: Core, f: nat)
    ensures f in c.fibers ==> Covers(c, Refresh(f), f)
  {}

  lemma PcWfFixed(c: Core, was: Fiber, fib: Fiber, pc: Pc)
    ensures PcWf(c, was, pc) && fib.fixed == was.fixed ==> PcWf(c, fib, pc)
  {}

  /** After the driver's step its fiber has the continued frame as its only owner, or none. */
  lemma OnlyOwner(s: Sys, t: nat, ch: Choice, s': Sys, f: nat)
    requires SysWf(s) && Steps(s, t, ch, s') && SingleOwner(s) && SingleOwner(s') && Owns(s.pool[t], f)
    requires f in s.core.fibers && f in s'.core.fibers
    ensures var cont := Exec(s.core, s.pool[t], ch).cont;
      && (cont.Some? ==> s'.core.fibers[f].drive.busy)
      && (forall k :: k in s'.pool && Owns(s'.pool[k], f) ==> cont == Some(s'.pool[k]))
  {
    hide CoreWf;
    CallKinds(s.core, s.pool[t], ch);
    ContKinds(s.core, s.pool[t], ch);
    assert FrameWf(s.core, s.pool[t]);
    hide FrameWf, Exec;
    assert HasOwner(s.pool, f);
    var cont := Exec(s.core, s.pool[t], ch).cont;
    if cont.Some? { assert t in s'.pool && s'.pool[t] == cont.value; }
  }

  /** A new call changes no fiber and can only add to what is owed. */
  lemma ConsistentCall(s: Sys, fr: Frame, s': Sys, f: nat)
    ensures SysWf(s) && AllConsistent(s) && Calls(s, fr, s') && f in s.core.fibers ==> Consistent(s', f)
  {
    hide CoreWf, FrameWf, Settled, DriverOk, Covers;
    if SysWf(s) && AllConsistent(s) && Calls(s, fr, s') && f in s.core.fibers {
      assert Consistent(s, f);
      if Owed(s, f) && !s.core.fibers[f].drive.dirty {
        var k :| k in s.pool && Covers(s.core, s.pool[k], f);
        assert k in s'.pool && s'.pool[k] == s.pool[k];
      }
      forall k | k in s'.pool && Owns(s'.pool[k], f) ensures k in s.pool && s.pool[k] == s'.pool[k] {}
    }
  }
}
