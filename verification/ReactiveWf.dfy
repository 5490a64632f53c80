/** Every step keeps references well formed: the frames that wait stay executable, and what is fixed
    at construction (inject set, scope, runtime, binding identity) never changes. */
module ReactiveWf {
  import opened Options
  import opened Reactive

  predicate SameStatics(a: Fiber, b: Fiber) {
    a.fixed == b.fixed && (a.published ==> b.published)
  }

  /** What only grows from `c` to `c'`. */
  predicate Grows(c: Core, c': Core) {
    && (forall f :: f in c.fibers ==> f in c'.fibers && SameStatics(c.fibers[f], c'.fibers[f]))
    && (forall e :: e in c.store ==> e in c'.store && c'.store[e] == c.store[e])
    && c.entries.Keys <= c'.entries.Keys
    && (forall r :: r in c.rts ==> r in c'.rts && c'.rts[r].def == c.rts[r].def)
    && c.counter <= c'.counter && c.bindingSeq <= c'.bindingSeq && c.runtimeSeq <= c'.runtimeSeq
  }

  predicate OptWf(c: Core, fr: Option<Frame>) {
    fr.Some? ==> FrameWf(c, fr.value)
  }

  lemma FrameWfGrows(c: Core, c': Core, fr: Frame)
    ensures Grows(c, c') && FrameWf(c, fr) ==> FrameWf(c', fr)
  {
    if Grows(c, c') && FrameWf(c, fr) {
      if fr.Driver? {
        assert SameStatics(c.fibers[fr.f], c'.fibers[fr.f]);
      }
    }
  }

  lemma FiberWfGrows(c: Core, c': Core, f: nat, fib: Fiber)
    ensures Grows(c, c') && FiberWf(c, f, fib) ==> FiberWf(c', f, fib)
  {}

  lemma RuntimeWfGrows(c: Core, c': Core, r: nat, rt: Runtime)
    ensures Grows(c, c') && RuntimeWf(c, r, rt) ==> RuntimeWf(c', r, rt)
  {
    if Grows(c, c') && RuntimeWf(c, r, rt) {
      forall f | f in rt.fibers ensures f in c'.fibers && c'.fibers[f].published && c'.fibers[f].fixed.runtime == r {
        assert SameStatics(c.fibers[f], c'.fibers[f]);
      }
    }
  }

  /** A step leaves a well-formed core when every object it changed is well formed in the new core. */
  lemma Assemble(c: Core, c': Core)
    requires CoreWf(c) && Grows(c, c') && c'.entries.Keys <= c'.store.Keys
    requires forall f :: f in c'.fibers ==>
      (f in c.fibers && c'.fibers[f] == c.fibers[f]) || FiberWf(c', f, c'.fibers[f])
    requires forall e :: e in c'.store ==> e in c.store || BindingWf(c', e, c'.store[e])
    requires forall at :: at in c'.bindings ==>
      (at in c.bindings && c'.bindings[at] == c.bindings[at]) || SlotWf(c', at, c'.bindings[at])
    requires forall r :: r in c'.rts ==> (r in c.rts && c'.rts[r] == c.rts[r]) || RuntimeWf(c', r, c'.rts[r])
    requires forall d :: d in c'.runtimes ==> c'.runtimes[d] in c'.rts && c'.rts[c'.runtimes[d]].def == d
    ensures CoreWf(c')
  {
    hide FiberWf, RuntimeWf, BindingWf, SlotWf;
    forall f | f in c'.fibers ensures FiberWf(c', f, c'.fibers[f]) {
      if f in c.fibers && c'.fibers[f] == c.fibers[f] { FiberWfGrows(c, c', f, c.fibers[f]); }
    }
    forall r | r in c'.rts ensures RuntimeWf(c', r, c'.rts[r]) {
      if r in c.rts && c'.rts[r] == c.rts[r] { RuntimeWfGrows(c, c', r, c.rts[r]); }
    }
    forall e | e in c'.store ensures BindingWf(c', e, c'.store[e]) {
      if e in c.store { BindingWfGrows(c, c', e); }
    }
    forall at | at in c'.bindings ensures SlotWf(c', at, c'.bindings[at]) {
      if at in c.bindings && c'.bindings[at] == c.bindings[at] { SlotWfGrows(c, c', at, c.bindings[at]); }
    }
  }

  lemma BindingWfGrows(c: Core, c': Core, e: nat)
    ensures Grows(c, c') && e in c.store && BindingWf(c, e, c.store[e]) ==> BindingWf(c', e, c'.store[e])
  {}

  lemma SlotWfGrows(c: Core, c': Core, at: Label, e: nat)
    ensures Grows(c, c') && SlotWf(c, at, e) ==> SlotWf(c', at, e)
  {}

  /** What one executed step leaves behind. */
  predicate GoodOut(c: Core, out: Out) {
    out.Ran? ==> Grows(c, out.core) && CoreWf(out.core) && OptWf(out.core, out.cont) && OptWf(out.core, out.call)
  }

  /** Writing one fiber's lifecycle fields keeps the core well formed. */
  lemma WithWf(c: Core, f: nat, fib: Fiber)
    ensures CoreWf(c) && f in c.fibers && FiberWf(c, f, fib) && SameStatics(c.fibers[f], fib) ==>
      CoreWf(With(c, f, fib)) && Grows(c, With(c, f, fib))
  {
    hide FiberWf, RuntimeWf, SlotWf, BindingWf;
    if CoreWf(c) && f in c.fibers && FiberWf(c, f, fib) && SameStatics(c.fibers[f], fib) {
      var c' := With(c, f, fib);
      FiberWfGrows(c, c', f, fib);
      Assemble(c, c');
    }
  }

  lemma EntryWf(c: Core, c': Core)
    ensures CoreWf(c) && c.entries.Keys <= c'.entries.Keys <= c.store.Keys && c' == c.(entries := c'.entries) ==>
      CoreWf(c') && Grows(c, c')
  {
    hide FiberWf, RuntimeWf, SlotWf, BindingWf;
    if CoreWf(c) && c.entries.Keys <= c'.entries.Keys <= c.store.Keys && c' == c.(entries := c'.entries) {
      Assemble(c, c');
    }
  }

  predicate GoodUOut(c: Core, out: UOut) {
    out.UMoved? ==>
      && Grows(c, out.core) && CoreWf(out.core) && OptWf(out.core, out.call)
      && (out.next.Some? ==> UPcWf(out.core, out.next.value))
  }

  lemma UnloadWf(c: Core, f: nat, u: UPc, ch: Choice)
    ensures CoreWf(c) && PublishedFiber(c, f) && UPcWf(c, u) ==> GoodUOut(c, ExecUnload(c, f, u, ch))
  {
    hide CoreWf, Grows, FiberWf, PcWf;
    if CoreWf(c) && PublishedFiber(c, f) && UPcWf(c, u) {
      if u.UDrain? && u.todo != {} {
        if ch.entry in u.todo { DrainWf(c, u.todo, ch.entry); }
      } else {
        CoreFacts(c, f);
        UnloadFiberWf(c, f, c.fibers[f], u);
        WithWf(c, f, UnloadFiber(c.fibers[f], u));
      }
    }
  }

  lemma UnloadFiberWf(c: Core, f: nat, fib: Fiber, u: UPc)
    ensures FiberWf(c, f, fib) ==>
      FiberWf(c, f, UnloadFiber(fib, u)) && SameStatics(fib, UnloadFiber(fib, u))
      && (UnloadNext(fib, u).Some? ==> UPcWf(c, UnloadNext(fib, u).value))
  {
    hide SnapshotWf;
  }

  lemma DrainWf(c: Core, todo: set<nat>, e: nat)
    ensures CoreWf(c) && todo <= c.entries.Keys && e in todo ==> GoodUOut(c, ExecDrain(c, todo, e))
  {
    hide CoreWf, Grows, PcWf;
    EntryKeys(c);
    GrowsRefl(c);
    EntryWf(c, c.(entries := c.entries[e := Running(true)]));
    EntryWf(c, c.(entries := c.entries[e := Releasing]));
  }

  lemma EntryKeys(c: Core)
    ensures CoreWf(c) ==> c.entries.Keys <= c.store.Keys
  {}

  lemma CoreFacts(c: Core, f: nat)
    ensures CoreWf(c) && f in c.fibers ==> FiberWf(c, f, c.fibers[f]) && c.entries.Keys <= c.store.Keys
  {}

  lemma GrowsRefl(c: Core)
    ensures Grows(c, c)
  {}

  lemma DriverWf(c: Core, f: nat, pc: Pc, ch: Choice)
    ensures CoreWf(c) && PublishedFiber(c, f) && PcWf(c, c.fibers[f], pc) ==> GoodOut(c, ExecDriver(c, f, pc, ch))
  {
    hide CoreWf, Grows, FiberWf, DriverFiber, DriverNext, UnloadFiber, UnloadNext, ExecUnload;
    if CoreWf(c) && PublishedFiber(c, f) && PcWf(c, c.fibers[f], pc) {
      if pc.Unload? {
        UnloadWf(c, f, pc.u, ch);
        var out := ExecUnload(c, f, pc.u, ch);
        if out.UMoved? { GrowsPublished(c, out.core, f); }
      } else if Chooses(pc, ch) {
        CoreFacts(c, f);
        DriverFiberWf(c, f, c.fibers[f], pc, ch);
        DriverNextWf(c, f, c.fibers[f], pc, ch);
        WithWf(c, f, DriverFiber(c, c.fibers[f], pc, ch));
        PcWfWith(c, f, DriverFiber(c, c.fibers[f], pc, ch), DriverNext(c, c.fibers[f], pc, ch));
      }
    }
  }

  lemma PcWfUnload(c: Core, fib: Fiber, pc: Pc)
    ensures PcWf(c, fib, pc) && pc.Unload? ==> UPcWf(c, pc.u)
  {}

  lemma PcWfWith(c: Core, f: nat, fib: Fiber, next: Option<Pc>)
    ensures (f in c.fibers && (next.Some? ==> PcWf(c, c.fibers[f], next.value))) && c.fibers[f].fixed == fib.fixed ==>
      next.Some? ==> PcWf(With(c, f, fib), fib, next.value)
  {}

  /** Outside `unload`, the driver writes its own fiber only, within its constraints. */
  lemma DriverFiberWf(c: Core, f: nat, fib: Fiber, pc: Pc, ch: Choice)
    ensures FiberWf(c, f, fib) && PcWf(c, fib, pc) ==>
      FiberWf(c, f, DriverFiber(c, fib, pc, ch)) && SameStatics(fib, DriverFiber(c, fib, pc, ch))
  {
    hide SnapshotWf, GotWf;
    if pc.LoadCommit? {
      GotFacts(c, fib, pc.got);
    }
  }

  lemma GotFacts(c: Core, fib: Fiber, got: map<Name, nat>)
    ensures GotWf(c, fib.fixed.inject, got) && got.Keys == fib.fixed.inject ==>
      SnapshotWf(c, got) && KeysOf(c, got).Keys == fib.fixed.inject
  {}

  /** The driver's next program counter refers to what exists. */
  lemma DriverNextWf(c: Core, f: nat, fib: Fiber, pc: Pc, ch: Choice)
    ensures PcWf(c, fib, pc) && Chooses(pc, ch) ==>
      var next := DriverNext(c, fib, pc, ch); next.Some? ==> PcWf(c, fib, next.value)
  {
    hide GotWf;
    if PcWf(c, fib, pc) && Chooses(pc, ch) {
      GotEmpty(c, fib.fixed.inject);
      var none: map<Name, nat> := map[];
      assert fib.fixed.inject + none.Keys == fib.fixed.inject;
      if pc.ResolveState? {
        GotMore(c, fib.fixed.inject, pc.got, pc.name, pc.found);
        assert (pc.todo - {pc.name}) + pc.got[pc.name := pc.found].Keys == fib.fixed.inject;
      }
      if pc.Resolve? && pc.todo == {} {
        assert pc.got.Keys == fib.fixed.inject;
      }
    }
  }

  lemma GotEmpty(c: Core, inject: set<Name>)
    ensures GotWf(c, inject, map[])
  {}

  lemma GotMore(c: Core, inject: set<Name>, got: map<Name, nat>, name: Name, e: nat)
    ensures GotWf(c, inject, got) && name in inject && e in c.store && c.store[e].name == name ==>
      GotWf(c, inject, got[name := e])
  {}

  lemma ProvideStepWf(c: Core, fr: Frame, ch: Choice)
    ensures Fits(c, fr) && fr.Provide? ==> GoodOut(c, ExecProvide(c, fr, ch))
  {
    hide CoreWf, GoodOut, ExecProvide, Fits;
    if Fits(c, fr) && fr.Provide? {
      if fr.pv.PvAlloc? || fr.pv.PvGate? || fr.pv.PvEnter? { ProvideStartWf(c, fr, ch); }
      else if fr.pv.PvRegister? || fr.pv.PvAbort? { ProvideRegisterWf(c, fr, ch); }
      else { ProvideEndWf(c, fr, ch); }
    }
  }

  lemma ProvideStartWf(c: Core, fr: Frame, ch: Choice)
    ensures (Fits(c, fr) && fr.Provide? && (fr.pv.PvAlloc? || fr.pv.PvGate? || fr.pv.PvEnter?)) ==>
      GoodOut(c, ExecProvide(c, fr, ch))
  {
    hide CoreWf, Grows, FiberWf, Accepts, PcWf;
    if (Fits(c, fr) && fr.Provide? && (fr.pv.PvAlloc? || fr.pv.PvGate? || fr.pv.PvEnter?)) {
      GrowsRefl(c);
      match fr.pv
      case PvAlloc =>
        if fr.name != "" { NumberWf(c, Binding(fr.name, fr.at, fr.f, fr.available, fr.owner, Registration)); }
      case PvGate(e) =>
      case PvEnter(e) =>
        PublishWf(c, fr.f, e, fr.owner);
        FrameWfGrows(c, Publish(c, fr.f, e, fr.owner), fr);
    }
  }

  lemma ProvideRegisterWf(c: Core, fr: Frame, ch: Choice)
    ensures (Fits(c, fr) && fr.Provide? && (fr.pv.PvRegister? || fr.pv.PvAbort?)) ==>
      GoodOut(c, ExecProvide(c, fr, ch))
  {
    hide CoreWf, Grows, FiberWf, Finished, PcWf;
    if (Fits(c, fr) && fr.Provide? && (fr.pv.PvRegister? || fr.pv.PvAbort?)) {
      GrowsRefl(c);
      if fr.pv.PvAbort? { FinishedWf(c, fr.pv.e, fr.f); }
      else if fr.at !in c.bindings { RegisterWf(c, fr.at, fr.pv.e); }
    }
  }

  lemma ProvideEndWf(c: Core, fr: Frame, ch: Choice)
    ensures Fits(c, fr) && fr.Provide? && (fr.pv.PvSnapshot? || fr.pv.PvNotify? || fr.pv.PvInstall?) ==>
      GoodOut(c, ExecProvide(c, fr, ch))
  {
    hide CoreWf, Grows, FiberWf, PcWf;
    if Fits(c, fr) && fr.Provide? && (fr.pv.PvSnapshot? || fr.pv.PvNotify? || fr.pv.PvInstall?) {
      GrowsRefl(c);
      match fr.pv
      case PvSnapshot(e) =>
        var held := c.fibers[fr.f].snapshot;
        if held.Some? {
          HoldWf(c, fr.f, e, held.value[fr.name := e]);
          FrameWfGrows(c, With(c, fr.f, c.fibers[fr.f].(snapshot := Some(held.value[fr.name := e]))), fr);
        }
      case PvNotify(e) =>
      case PvInstall(e) =>
        EntryKeys(c);
        EntryWf(c, c.(entries := c.entries[e := Releasing]));
        EntryWf(c, c.(entries := c.entries[e := Ready]));
    }
  }

  /** An entry is finished and leaves its fiber's list. */
  lemma FinishedWf(c: Core, e: nat, f: nat)
    ensures CoreWf(c) && f in c.fibers && e in c.store ==> CoreWf(Finished(c, e, f)) && Grows(c, Finished(c, e, f))
  {
    hide CoreWf, Grows, SnapshotWf;
    if CoreWf(c) && f in c.fibers && e in c.store {
      CoreFacts(c, f);
      var mid, fib := c.(entries := c.entries[e := Done]), c.fibers[f].(list := c.fibers[f].list - {e});
      EntryWf(c, mid);
      CoreFacts(mid, f);
      WithWf(mid, f, fib);
      GrowsTrans(c, mid, With(mid, f, fib));
    }
  }

  /** An entry is published. */
  lemma PublishWf(c: Core, f: nat, e: nat, owner: Option<nat>)
    ensures CoreWf(c) && f in c.fibers && e in c.store ==>
      CoreWf(Publish(c, f, e, owner)) && Grows(c, Publish(c, f, e, owner))
  {
    hide CoreWf, Grows, SnapshotWf;
    if CoreWf(c) && f in c.fibers && e in c.store {
      CoreFacts(c, f);
      var mid := c.(entries := c.entries[e := Running(false)]);
      EntryWf(c, mid);
      CoreFacts(mid, f);
      WithWf(mid, f, Entered(c.fibers[f], e, owner));
      GrowsTrans(c, mid, With(mid, f, Entered(c.fibers[f], e, owner)));
    }
  }

  /** The next number goes to a new effect. */
  lemma NumberWf(c: Core, b: Binding)
    requires CoreWf(c) && b.provider in c.fibers && OwnerWf(c, b.provider, b.owner)
    requires b.kind.Child? ==>
      b.kind.f in c.fibers && b.kind.f != 0 && c.fibers[b.kind.f].fixed.parent == Some(b.provider)
    ensures var e := c.bindingSeq + 1;
      var c' := c.(bindingSeq := e, store := c.store[e := b]);
      CoreWf(c') && Grows(c, c') && e !in c.store
  {
    hide FiberWf, RuntimeWf, SlotWf;
    var e := c.bindingSeq + 1;
    var c' := c.(bindingSeq := e, store := c.store[e := b]);
    assert e !in c.store by { NextNumber(c); }
    if b.owner.Some? { BindingFacts(c, b.owner.value); }
    Assemble(c, c');
  }

  lemma NextNumber(c: Core)
    ensures CoreWf(c) ==> c.bindingSeq + 1 !in c.store
  {
    if CoreWf(c) {
      assert forall e :: e in c.store ==> BindingWf(c, e, c.store[e]);
      hide CoreWf, OwnerWf;
    }
  }

  lemma PublishNextWf(c: Core, f: nat, owner: Option<nat>, kind: Kind)
    requires CoreWf(c) && f in c.fibers && OwnerWf(c, f, owner)
    requires kind.Child? ==> kind.f in c.fibers && kind.f != 0 && c.fibers[kind.f].fixed.parent == Some(f)
    ensures var c', e := PublishNext(c, f, owner, kind), c.bindingSeq + 1;
      CoreWf(c') && Grows(c, c') && e in c'.entries && NumberedFor(c', e, f, owner, kind)
  {
    hide CoreWf, Grows;
    var e, b := c.bindingSeq + 1, Binding("", "", f, true, owner, kind);
    var mid := c.(bindingSeq := e, store := c.store[e := b]);
    NumberWf(c, b);
    PublishWf(mid, f, e, owner);
    GrowsTrans(c, mid, Publish(mid, f, e, owner));
  }

  /** A snapshot gains or loses the fiber's own binding. */
  lemma HoldWf(c: Core, f: nat, e: nat, held: map<Name, nat>)
    requires CoreWf(c) && f in c.fibers && e in c.store && c.fibers[f].snapshot.Some?
    requires held == c.fibers[f].snapshot.value[c.store[e].name := e]
      || held == c.fibers[f].snapshot.value - {c.store[e].name}
    ensures var c' := With(c, f, c.fibers[f].(snapshot := Some(held))); CoreWf(c') && Grows(c, c')
  {
    hide CoreWf, Grows, SnapshotWf;
    CoreFacts(c, f);
    SnapshotMore(c, c.fibers[f].snapshot.value, c.store[e].name, e);
    SnapshotLess(c, c.fibers[f].snapshot.value, c.store[e].name);
    WithWf(c, f, c.fibers[f].(snapshot := Some(held)));
  }

  lemma SnapshotMore(c: Core, held: map<Name, nat>, name: Name, e: nat)
    ensures SnapshotWf(c, held) && e in c.store && c.store[e].name == name ==> SnapshotWf(c, held[name := e])
  {}

  lemma SnapshotLess(c: Core, held: map<Name, nat>, name: Name)
    ensures SnapshotWf(c, held) ==> SnapshotWf(c, held - {name})
  {}

  lemma GrowsTrans(a: Core, b: Core, c: Core)
    ensures Grows(a, b) && Grows(b, c) ==> Grows(a, c)
  {
    if Grows(a, b) && Grows(b, c) {
      forall f | f in a.fibers ensures f in c.fibers && SameStatics(a.fibers[f], c.fibers[f]) {
        assert SameStatics(a.fibers[f], b.fibers[f]) && SameStatics(b.fibers[f], c.fibers[f]);
      }
    }
  }

  lemma RegisterWf(c: Core, at: Label, e: nat)
    ensures CoreWf(c) && SlotWf(c, at, e) ==>
      var c' := c.(bindings := c.bindings[at := e]); CoreWf(c') && Grows(c, c')
  {
    hide FiberWf, RuntimeWf;
    if CoreWf(c) && SlotWf(c, at, e) {
      Assemble(c, c.(bindings := c.bindings[at := e]));
    }
  }

  lemma UnregisterWf(c: Core, at: Label)
    ensures CoreWf(c) ==>
      var c' := c.(bindings := c.bindings - {at}); CoreWf(c') && Grows(c, c')
  {
    hide FiberWf, RuntimeWf;
    if CoreWf(c) {
      Assemble(c, c.(bindings := c.bindings - {at}));
    }
  }

  lemma BindingFacts(c: Core, e: nat)
    ensures CoreWf(c) && e in c.store ==> BindingWf(c, e, c.store[e])
  {}

  lemma DisposerWf(c: Core, fr: Frame, ch: Choice)
    ensures (Fits(c, fr) && (fr.Disposer? || fr.Release?)) ==> GoodOut(c, ExecDisposer(c, fr, ch))
  {
    hide CoreWf, Grows, FiberWf, ExecUnwind, PcWf;
    if (Fits(c, fr) && (fr.Disposer? || fr.Release?)) {
      BindingFacts(c, fr.e);
      CoreFacts(c, c.store[fr.e].provider);
      GrowsRefl(c);
      var b := c.store[fr.e];
      if fr.Release? {
        EntryWf(c, c.(entries := c.entries[fr.e := Requested(c.entries[fr.e])]));
      } else {
        match fr.un
        case UnRegister => UnregisterWf(c, b.at);
        case UnSnapshot =>
          var held := c.fibers[b.provider].snapshot;
          if held.Some? { HoldWf(c, b.provider, fr.e, held.value - {b.name}); }
        case UnChild =>
        case UnDone => UnwindWf(c, fr, fr.e, b.provider, ch);
      }
    }
  }

  lemma UnwindWf(c: Core, fr: Frame, e: nat, f: nat, ch: Choice)
    ensures Fits(c, fr) && f in c.fibers && e in c.store ==> GoodOut(c, ExecUnwind(c, fr, e, f, ch))
  {
    hide CoreWf, Grows, FrameWf;
    if Unhandled(c, e) == {} {
      FinishedWf(c, e, f);
    } else if ch.entry in Unhandled(c, e) {
      var k := ch.entry;
      EntryKeys(c);
      EntryWf(c, c.(entries := c.entries[k := Running(true)]));
      EntryWf(c, c.(entries := c.entries[k := Releasing]));
      FrameWfGrows(c, c.(entries := c.entries[k := Running(true)]), fr);
      FrameWfGrows(c, c.(entries := c.entries[k := Releasing]), fr);
      DisposerKnown(c.(entries := c.entries[k := Releasing]), k);
    }
  }

  lemma DisposerKnown(c: Core, e: nat)
    ensures e in c.store && e in c.entries ==> FrameWf(c, Disposer(e, FirstSection(c, e)))
  {}

  lemma EffectStepWf(c: Core, fr: Frame, ch: Choice)
    ensures Fits(c, fr) && fr.Effect? ==> GoodOut(c, ExecEffect(c, fr, ch))
  {
    hide CoreWf, Grows, ExecUnwind, PublishNext, PcWf;
    if Fits(c, fr) && fr.Effect? {
      GrowsRefl(c);
      match fr.fx
      case FxEnter =>
        PublishNextWf(c, fr.f, fr.owner, Scope);
        GrowsPublished(c, PublishNext(c, fr.f, fr.owner, Scope), fr.f);
        GrowsOwner(c, PublishNext(c, fr.f, fr.owner, Scope), fr.f, fr.owner);
      case FxBody(e) =>
        EntryKeys(c);
        EntryWf(c, c.(entries := c.entries[e := Releasing]));
        EntryWf(c, c.(entries := c.entries[e := Ready]));
      case FxAbandon(e) => UnwindWf(c, fr, e, fr.f, ch);
    }
  }

  lemma GrowsOwner(c: Core, c': Core, f: nat, owner: Option<nat>)
    ensures Grows(c, c') && OwnerWf(c, f, owner) ==> OwnerWf(c', f, owner)
  {}

  lemma RuntimeShrinks(c: Core, r: nat, rt: Runtime, rt': Runtime)
    ensures RuntimeWf(c, r, rt) && rt'.fibers <= rt.fibers ==> RuntimeWf(c, r, rt')
  {}

  /** Steps that touch one runtime and the registry only. */
  lemma RuntimesWf(c: Core, c': Core, r: nat)
    requires CoreWf(c) && r in c.rts && r in c'.rts && RuntimeWf(c, r, c'.rts[r])
    requires c' == c.(rts := c.rts[r := c'.rts[r]], runtimes := c'.runtimes)
    requires c'.rts[r].def == c.rts[r].def
    requires forall d :: d in c'.runtimes ==> d in c.runtimes && c'.runtimes[d] == c.runtimes[d]
    ensures CoreWf(c') && Grows(c, c')
  {
    hide FiberWf, SlotWf, BindingWf, RuntimeWf;
    RuntimeWfGrows(c, c', r, c'.rts[r]);
    Assemble(c, c');
  }

  lemma RemoveWf(c: Core, r: nat, f: nat)
    ensures CoreWf(c) && r in c.rts ==>
      CoreWf(RemoveFiber(c, r, f)) && Grows(c, RemoveFiber(c, r, f)) && CoreWf(Discard(c, r))
      && Grows(c, Discard(c, r))
  {
    hide FiberWf, SlotWf, BindingWf, RuntimeWf, Grows;
    if CoreWf(c) && r in c.rts {
      RuntimeShrinks(c, r, c.rts[r], c.rts[r].(fibers := c.rts[r].fibers - {f}));
      RuntimeShrinks(c, r, c.rts[r], c.rts[r].(claims := c.rts[r].claims - 1));
      RuntimesWf(c, RemoveFiber(c, r, f), r);
      RuntimesWf(c, Discard(c, r), r);
    }
  }

  lemma ClaimWf(c: Core, fr: Frame, ch: Choice)
    ensures Fits(c, fr) && fr.Load? && fr.ld.LdClaim? ==> GoodOut(c, ExecLoad(c, fr, ch))
  {
    hide CoreWf, Grows, PcWf, PublishNext;
    if Fits(c, fr) && fr.Load? && fr.ld.LdClaim? {
      if fr.def in c.runtimes {
        RegisteredFacts(c, fr.def);
        ReclaimWf(c, c.runtimes[fr.def], ExecLoad(c, fr, ch).core);
      } else {
        FirstClaimWf(c, fr.def, ExecLoad(c, fr, ch).core);
      }
    }
  }

  lemma ReclaimWf(c: Core, r: nat, c': Core)
    ensures CoreWf(c) && r in c.rts && c' == c.(rts := c.rts[r := c.rts[r].(claims := c.rts[r].claims + 1)]) ==>
      Grows(c, c') && CoreWf(c')
  {
    if CoreWf(c) && r in c.rts && c' == c.(rts := c.rts[r := c.rts[r].(claims := c.rts[r].claims + 1)]) {
      assert RuntimeWf(c', r, c'.rts[r]) by { RuntimeFacts(c, r); }
      hide FiberWf, SlotWf, BindingWf, RuntimeWf;
      Assemble(c, c');
    }
  }

  lemma FirstClaimWf(c: Core, def: nat, c': Core)
    requires CoreWf(c) && def !in c.runtimes
    requires var r := c.runtimeSeq + 1;
      c' == c.(runtimeSeq := r, runtimes := c.runtimes[def := r], rts := c.rts[r := Runtime(def, {}, 1)])
    ensures Grows(c, c') && CoreWf(c')
  {
    hide FiberWf, SlotWf, BindingWf, RuntimeWf;
    RegisteredFacts(c, def);
    EmptyRuntimeWf(c', def);
    Assemble(c, c');
  }

  lemma NewFiberWf(c: Core, fr: Frame, ch: Choice)
    ensures Fits(c, fr) && fr.Load? && fr.ld.LdNew? ==> GoodOut(c, ExecLoad(c, fr, ch))
  {
    hide CoreWf, Grows, RuntimeWf, FiberWf, PcWf, PublishNext;
    if Fits(c, fr) && fr.Load? && fr.ld.LdNew? {
      var f := c.counter + 1;
      if f in c.fibers { CoreFacts(c, f); }
      BornWf(c, f, fr.parent, fr.ld.r, fr.inject, fr.scope);
    }
  }

  /** A fiber joins under the next identifier. */
  lemma BornWf(c: Core, f: nat, parent: nat, r: nat, inject: set<Name>, scope: map<Name, Label>)
    ensures CoreWf(c) && f == c.counter + 1 && f !in c.fibers && parent in c.fibers && r in c.rts ==>
      var c' := With(c.(counter := f), f, NewFiber(parent, r, inject, scope));
      && CoreWf(c') && Grows(c, c') && f in c'.fibers && f != 0 && c'.fibers[f].fixed.runtime == r
      && c'.rts == c.rts && c'.fibers[f].fixed.parent == Some(parent)
  {
    hide Grows;
    if CoreWf(c) && f == c.counter + 1 && f !in c.fibers && parent in c.fibers && r in c.rts {
      CoreFacts(c, parent);
      EntryKeys(c);
      var c' := With(c.(counter := f), f, NewFiber(parent, r, inject, scope));
      assert FiberWf(c', f, c'.fibers[f]);
      hide FiberWf, RuntimeWf, SlotWf, BindingWf;
      GrowsBorn(c, c', f);
      Assemble(c, c');
    }
  }

  lemma GrowsBorn(c: Core, c': Core, f: nat)
    ensures
      && f !in c.fibers && f == c.counter + 1 && f in c'.fibers
      && c' == c.(counter := f, fibers := c.fibers[f := c'.fibers[f]])
      ==> Grows(c, c')
  {}

  lemma AttachWf(c: Core, fr: Frame, ch: Choice)
    ensures Fits(c, fr) && fr.Load? && fr.ld.LdAttach? ==> GoodOut(c, ExecLoad(c, fr, ch))
  {
    hide CoreWf, Grows, SnapshotWf, RuntimeWf, PcWf, PublishNext;
    if Fits(c, fr) && fr.Load? && fr.ld.LdAttach? {
      var r, f := fr.ld.r, fr.ld.f;
      CoreFacts(c, f);
      RuntimeFacts(c, r);
      var fib, rt := c.fibers[f].(published := true), c.rts[r];
      var mid := With(c, f, fib);
      WithWf(c, f, fib);
      var rt' := rt.(fibers := rt.fibers + {f}, claims := rt.claims - 1);
      AttachedRuntimeWf(c, mid, r, f, rt');
      var c' := mid.(rts := mid.rts[r := rt']);
      RuntimesWf(mid, c', r);
      GrowsTrans(c, mid, c');
      assert c' == ExecLoad(c, fr, ch).core;
    }
  }

  lemma EmptyRuntimeWf(c: Core, def: nat)
    ensures RuntimeWf(c, c.runtimeSeq, Runtime(def, {}, 1))
  {}

  lemma DisposingKnown(c: Core, fr: Frame)
    ensures FrameWf(c, fr) && fr.Disposing? ==> PublishedFiber(c, fr.f)
  {}

  lemma RegisteredFacts(c: Core, def: nat)
    ensures CoreWf(c) ==>
      (def in c.runtimes ==> c.runtimes[def] in c.rts && c.rts[c.runtimes[def]].def == def)
      && c.runtimeSeq + 1 !in c.rts
  {
    hide FiberWf, SlotWf, BindingWf;
    if CoreWf(c) {
      assert forall r :: r in c.rts ==> RuntimeWf(c, r, c.rts[r]);
    }
  }

  lemma RuntimeFacts(c: Core, r: nat)
    ensures CoreWf(c) && r in c.rts ==>
      RuntimeWf(c, r, c.rts[r])
      && (forall d :: d in c.runtimes ==> c.runtimes[d] in c.rts && c.rts[c.runtimes[d]].def == d)
  {}

  lemma AttachedRuntimeWf(c: Core, mid: Core, r: nat, f: nat, rt': Runtime)
    requires r in c.rts && RuntimeWf(c, r, c.rts[r]) && Grows(c, mid) && rt'.fibers == c.rts[r].fibers + {f}
    requires PublishedFiber(mid, f) && f != 0 && mid.fibers[f].fixed.runtime == r
    ensures RuntimeWf(mid, r, rt')
  {
    hide Grows;
    RuntimeWfGrows(c, mid, r, c.rts[r]);
  }

  lemma LoadStepWf(c: Core, fr: Frame, ch: Choice)
    ensures Fits(c, fr) && fr.Load? ==> GoodOut(c, ExecLoad(c, fr, ch))
  {
    hide CoreWf, Grows, PcWf, PublishNext;
    if Fits(c, fr) && fr.Load? {
      match fr.ld
      case LdGate => GrowsRefl(c);
      case LdClaim => ClaimWf(c, fr, ch);
      case LdNew(r) => NewFiberWf(c, fr, ch);
      case LdEnter(r, f) => EnterWf(c, fr, ch);
      case LdAttach(r, f, _) => AttachWf(c, fr, ch);
      case LdInstall(r, f, e) =>
        InstallWf(c, fr, e, Releasing, ch);
        InstallWf(c, fr, e, Ready, ch);
      case LdStart(r, f, e) => GrowsRefl(c);
      case LdDiscard(r, f) => RemoveWf(c, r, f);
    }
  }

  /** The child's entry is published in its parent, or the load gives its claim back. */
  lemma EnterWf(c: Core, fr: Frame, ch: Choice)
    ensures Fits(c, fr) && fr.Load? && fr.ld.LdEnter? ==> GoodOut(c, ExecLoad(c, fr, ch))
  {
    hide CoreWf, Grows, Accepts, PublishNext, PcWf;
    if Fits(c, fr) && fr.Load? && fr.ld.LdEnter? {
      GrowsRefl(c);
      if Accepts(c, fr.parent, fr.owner) {
        var c' := PublishNext(c, fr.parent, fr.owner, Child(fr.ld.f));
        PublishNextWf(c, fr.parent, fr.owner, Child(fr.ld.f));
        FrameWfGrows(c, c', fr);
      }
    }
  }

  lemma InstallWf(c: Core, fr: Frame, e: nat, phase: Phase, ch: Choice)
    ensures Fits(c, fr) && fr.Load? && fr.ld.LdInstall? && fr.ld.e == e ==>
      var c' := c.(entries := c.entries[e := phase]);
      CoreWf(c') && Grows(c, c') && FrameWf(c', fr.(ld := LdStart(fr.ld.r, fr.ld.f, e)))
          && FrameWf(c', Disposer(e, FirstSection(c, e)))
  {
    hide CoreWf, Grows, PcWf;
    var c' := c.(entries := c.entries[e := phase]);
    EntryKeys(c);
    EntryWf(c, c');
    FrameWfGrows(c, c', fr);
  }

  lemma NotifyWf(c: Core, fr: Frame, ch: Choice)
    ensures Fits(c, fr) && (fr.NotifyProvided? || fr.NotifyNames? || fr.Notify? || fr.Wake?) ==>
      GoodOut(c, ExecNotify(c, fr, ch))
  {
    hide Grows, ProvidedNames, LabelOf, PcWf, UPcWf, ProvideWf, EffectWf, LoadWf, FiberWf, BindingWf, SlotWf;
    if Fits(c, fr) && (fr.NotifyProvided? || fr.NotifyNames? || fr.Notify? || fr.Wake?) {
      GrowsRefl(c);
      if fr.Notify? {
        var targets := ExecNotify(c, fr, ch).cont.value.targets;
        forall f | f in targets ensures PublishedFiber(c, f) {
          assert RuntimeWf(c, c.fibers[f].fixed.runtime, c.rts[c.fibers[f].fixed.runtime]);
        }
      }
    }
  }

  lemma RefreshWf(c: Core, f: nat)
    requires CoreWf(c) && PublishedFiber(c, f)
    ensures GoodOut(c, ExecRefresh(c, f))
  {
    hide CoreWf, Grows, SnapshotWf, Marked, Taken;
    CoreFacts(c, f);
    WithWf(c, f, ExecRefresh(c, f).core.fibers[f]);
    GrowsPublished(c, ExecRefresh(c, f).core, f);
  }

  lemma DisposingWf(c: Core, f: nat, ds: DisposePc)
    ensures CoreWf(c) && PublishedFiber(c, f) ==> GoodOut(c, ExecDisposing(c, f, ds))
  {
    hide CoreWf, Grows, FiberWf, RemoveFiber, With, PcWf;
    if CoreWf(c) && PublishedFiber(c, f) {
      CoreFacts(c, f);
      GrowsRefl(c);
      var fib := c.fibers[f];
      match ds
      case DsMark => if !fib.disposed { MarkWf(c, f); }
      case DsRemove => if !fib.fixed.root { RemovedWf(c, f); }
      case DsRefresh => RootFirstFiber(c, f);
    }
  }

  lemma MarkWf(c: Core, f: nat)
    ensures CoreWf(c) && PublishedFiber(c, f) ==>
      var c' := With(c, f, c.fibers[f].(disposed := true, drive := Marked(c.fibers[f].drive)));
      CoreWf(c') && Grows(c, c') && PublishedFiber(c', f)
  {
    hide CoreWf, Grows, SnapshotWf;
    if CoreWf(c) && PublishedFiber(c, f) {
      CoreFacts(c, f);
      var fib := c.fibers[f].(disposed := true, drive := Marked(c.fibers[f].drive));
      WithWf(c, f, fib);
    }
  }

  lemma RemovedWf(c: Core, f: nat)
    ensures CoreWf(c) && PublishedFiber(c, f) && !c.fibers[f].fixed.root ==>
      c.fibers[f].fixed.runtime in c.rts
      && (var c' := RemoveFiber(c, c.fibers[f].fixed.runtime, f); CoreWf(c') && Grows(c, c') && PublishedFiber(c', f))
  {
    hide CoreWf, Grows, SnapshotWf, RemoveFiber;
    if CoreWf(c) && PublishedFiber(c, f) && !c.fibers[f].fixed.root {
      CoreFacts(c, f);
      RemoveWf(c, c.fibers[f].fixed.runtime, f);
      GrowsPublished(c, RemoveFiber(c, c.fibers[f].fixed.runtime, f), f);
    }
  }

  lemma RootFirstFiber(c: Core, f: nat)
    ensures CoreWf(c) && f in c.fibers ==> c.fibers[f].fixed.root ==> f == 0
  {
    hide CoreWf, SnapshotWf;
    CoreFacts(c, f);
  }

  lemma RestartingWf(c: Core, f: nat, update: bool, rs: RestartPc)
    ensures CoreWf(c) && PublishedFiber(c, f) ==> GoodOut(c, ExecRestarting(c, f, update, rs))
  {
    hide CoreWf, Grows, SnapshotWf, PcWf;
    if CoreWf(c) && PublishedFiber(c, f) {
      CoreFacts(c, f);
      GrowsRefl(c);
      WithWf(c, f,
          c.fibers[f].(drive := c.fibers[f].drive.(forceReload := true), err := if update then false
              else c.fibers[f].err));
    }
  }

  lemma ExecWf(c: Core, fr: Frame, ch: Choice)
    ensures Fits(c, fr) ==> GoodOut(c, Exec(c, fr, ch))
  {
    hide CoreWf, Grows, ExecDriver, ExecLoad, ExecNotify, ExecUnload, ExecProvide, ExecEffect, ExecDisposer, PcWf;
    hide ExecDisposing;
    if Fits(c, fr) {
      match fr
      case Refresh(f) => RefreshWf(c, f);
      case Driver(f, pc) => DriverWf(c, f, pc, ch);
      case RootUnload(f, u) =>
        UnloadWf(c, f, u, ch);
        if ExecUnload(c, f, u, ch).UMoved? { GrowsPublished(c, ExecUnload(c, f, u, ch).core, f); }
      case NotifyProvided(_) => NotifyWf(c, fr, ch);
      case NotifyNames(_, _) => NotifyWf(c, fr, ch);
      case Notify(_, _) => NotifyWf(c, fr, ch);
      case Wake(_) => NotifyWf(c, fr, ch);
      case Provide(_, _, _, _, _, _) => ProvideStepWf(c, fr, ch);
      case Effect(_, _, _) => EffectStepWf(c, fr, ch);
      case Disposer(_, _) => DisposerWf(c, fr, ch);
      case Release(_) => DisposerWf(c, fr, ch);
      case Disposing(f, ds) => DisposingWf(c, f, ds);
      case Restarting(f, update, rs) => RestartingWf(c, f, update, rs);
      case Load(_, _, _, _, _, _) => LoadStepWf(c, fr, ch);
    }
  }

  lemma GrowsPublished(c: Core, c': Core, f: nat)
    ensures Grows(c, c') && PublishedFiber(c, f) ==> PublishedFiber(c', f)
  {
    if Grows(c, c') && PublishedFiber(c, f) {
      assert SameStatics(c.fibers[f], c'.fibers[f]);
    }
  }

  lemma StepWf(s: Sys, t: nat, ch: Choice, s': Sys)
    ensures SysWf(s) && Steps(s, t, ch, s') ==> SysWf(s') && Grows(s.core, s'.core)
  {
    hide CoreWf, FrameWf, Exec, Grows;
    if SysWf(s) && Steps(s, t, ch, s') {
      ExecWf(s.core, s.pool[t], ch);
      forall k | k in s'.pool ensures k < s'.next && FrameWf(s'.core, s'.pool[k]) {
        if k in s.pool && k != t {
          FrameWfGrows(s.core, s'.core, s.pool[k]);
        }
      }
    }
  }

  lemma NextWf(s: Sys, s': Sys)
    requires SysWf(s) && Next(s, s')
    ensures SysWf(s') && Grows(s.core, s'.core)
  {
    hide Steps;
    if t, ch :| Steps(s, t, ch, s') {
      StepWf(s, t, ch, s');
    }
  }
}
