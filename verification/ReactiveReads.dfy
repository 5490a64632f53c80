/** What a service read gives while anything is in flight (context.go: resolveService): the nearest snapshot on the
    way up that shows the name in the reader's scope decides, and for the generation's own injections that is the
    binding its committed epoch names, from the commit to the end of the unwind. */
module ReactiveReads {
  import opened Options
  import opened Reactive
  import opened ReactiveWf
  import opened ReactiveDriver
  import opened ReactiveQuiescence
  import opened ReactiveLifecycle
  import opened ReactiveEntries
  import opened ReactiveSnapshots
  import opened ReactiveOwnership
  import opened ReactiveTheorems

  // ----- the walk -----

  /** The snapshot of `g` holds the available binding `e` of this name and scope; what state the provider is in does
      not matter. */
  predicate Shows(c: Core, g: nat, name: Name, at: Label, e: nat) {
    && g in c.fibers && c.fibers[g].snapshot.Some? && name in c.fibers[g].snapshot.value
    && c.fibers[g].snapshot.value[name] == e
    && e in c.store && c.store[e].name == name && c.store[e].at == at && c.store[e].available
  }

  ghost predicate ShowsNothing(c: Core, g: nat, name: Name, at: Label) {
    forall e :: !Shows(c, g, name, at, e)
  }

  /** From a fiber to its parent, as long as the scope stays the same. */
  predicate Up(c: Core, g: nat, p: nat, name: Name, at: Label) {
    && g in c.fibers && p in c.fibers && c.fibers[g].fixed.parent == Some(p) && LabelOf(c.fibers[p], name) == at
  }

  ghost predicate Top(c: Core, g: nat, name: Name, at: Label) {
    forall p :: !Up(c, g, p, name, at)
  }

  predicate Chain(c: Core, gs: seq<nat>, name: Name, at: Label) {
    gs != [] && gs[0] in c.fibers && forall k :: 0 <= k < |gs| - 1 ==> Up(c, gs[k], gs[k + 1], name, at)
  }

  /** A read gives what the nearest fiber on the way up shows. */
  lemma {:induction false} ReadsNearest(c: Core, gs: seq<nat>, name: Name, at: Label, e: nat)
    requires CoreWf(c) && Chain(c, gs, name, at) && Shows(c, gs[|gs| - 1], name, at, e)
    requires forall k :: 0 <= k < |gs| - 1 ==> ShowsNothing(c, gs[k], name, at)
    ensures ResolveService(c, gs[0], name, at) == Some(e)
  {
    hide CoreWf;
    if |gs| > 1 {
      assert Up(c, gs[0], gs[1], name, at) && ShowsNothing(c, gs[0], name, at);
      CoreFacts(c, gs[0]);
      assert forall k :: 0 <= k < |gs[1..]| - 1 ==> Up(c, gs[1..][k], gs[1..][k + 1], name, at);
      ReadsNearest(c, gs[1..], name, at, e);
      NothingHit(c, gs[0], name, at);
    }
  }

  lemma NothingHit(c: Core, g: nat, name: Name, at: Label)
    ensures ShowsNothing(c, g, name, at) ==> SnapshotHit(c, g, name, at).None?
  {
    if SnapshotHit(c, g, name, at).Some? { assert Shows(c, g, name, at, SnapshotHit(c, g, name, at).value); }
  }

  /** If nobody shows anything up to where the scope changes, it gives the active, available registration of the
      scope, if there is one. */
  lemma {:induction false} ReadsRegistry(c: Core, gs: seq<nat>, name: Name, at: Label)
    requires CoreWf(c) && Chain(c, gs, name, at) && forall k :: 0 <= k < |gs| ==> ShowsNothing(c, gs[k], name, at)
    requires Top(c, gs[|gs| - 1], name, at)
    ensures var got := ResolveService(c, gs[0], name, at);
      && (got.Some? ==> Live(c, got.value) && at in c.bindings && c.bindings[at] == got.value
                        && c.store[got.value].name == name)
      && (got.None? ==> !(at in c.bindings && Live(c, c.bindings[at]) && c.store[c.bindings[at]].name == name))
  {
    hide CoreWf;
    assert ShowsNothing(c, gs[0], name, at);
    NothingHit(c, gs[0], name, at);
    CoreFacts(c, gs[0]);
    if |gs| > 1 {
      assert Up(c, gs[0], gs[1], name, at);
      assert forall k :: 0 <= k < |gs[1..]| - 1 ==> Up(c, gs[1..][k], gs[1..][k + 1], name, at);
      ReadsRegistry(c, gs[1..], name, at);
    } else if c.fibers[gs[0]].fixed.parent.Some? {
      assert !Up(c, gs[0], c.fibers[gs[0]].fixed.parent.value, name, at);
    }
  }

  // ----- what the driver has found is registered under the fiber's own labels -----

  predicate Scoped(c: Core, fib: Fiber, got: map<Name, nat>) {
    forall n :: n in got ==> got[n] in c.store && c.store[got[n]].at == LabelOf(fib, n)
  }

  predicate PcScoped(c: Core, fib: Fiber, pc: Pc) {
    match pc
    case Resolve(_, got, _) => Scoped(c, fib, got)
    case ResolveState(name, found, _, got, _) =>
      Scoped(c, fib, got) && found in c.store && c.store[found].at == LabelOf(fib, name)
    case DecideHit(got) => Scoped(c, fib, got)
    case ApplyLoad(got) => Scoped(c, fib, got)
    case LoadClaim(got) => Scoped(c, fib, got)
    case LoadState(got) => Scoped(c, fib, got)
    case LoadCheck(_, got) => Scoped(c, fib, got)
    case LoadCommit(got) => Scoped(c, fib, got)
    case _ => true
  }

  lemma ScopedNext(c: Core, fib: Fiber, pc: Pc, ch: Choice)
    ensures CoreWf(c) && PcScoped(c, fib, pc) && DriverNext(c, fib, pc, ch).Some? ==>
      PcScoped(c, fib, DriverNext(c, fib, pc, ch).value)
  {
    hide CoreWf, KeysOf, Live;
    if pc.Resolve? && Registered(c, LabelOf(fib, ch.name), ch.name).Some? { SlotKnown(c, LabelOf(fib, ch.name)); }
    match pc
    case PassStart => case SyncTop => case Resolve(_, _, _) => case ResolveState(_, _, _, _, _) =>
    case DecideMiss(_) => case DecideHit(_) => case ApplyUnload(_) => case ApplyLoad(_) => case LoadClaim(_) =>
    case LoadState(_) => case LoadCheck(_, _) => case GiveBack => case GiveBackState => case GiveBackRefresh =>
    case LoadCommit(_) => case Config => case Body => case BodyDone => case BodyActive => case Unload(_, _) =>
    case ReloadMid => case FailMid => case FailState => case PassEnd =>
  }

  lemma ScopedKept(c: Core, c': Core, fib: Fiber, fib': Fiber, pc: Pc)
    requires Grows(c, c') && fib'.fixed == fib.fixed && PcScoped(c, fib, pc)
    ensures PcScoped(c', fib', pc)
  {
    forall e | e in c.store ensures e in c'.store && c'.store[e] == c.store[e] { GrowsStore(c, c', e); }
    hide Grows;
  }

  ghost predicate ReadsOk(s: Sys) {
    forall t :: t in s.pool ==> FrameScoped(s.core, s.pool[t])
  }

  predicate FrameScoped(c: Core, fr: Frame) {
    fr.Driver? && fr.f in c.fibers ==> PcScoped(c, c.fibers[fr.f], fr.pc)
  }

  lemma ReadsFrame(s: Sys, t: nat, ch: Choice, s': Sys, k: nat)
    ensures SysWf(s) && Grows(s.core, s'.core) && Steps(s, t, ch, s') && ReadsOk(s) && k in s'.pool ==>
      FrameScoped(s'.core, s'.pool[k])
  {
    hide CoreWf, FrameWf, Exec, PcScoped, Grows;
    if SysWf(s) && Grows(s.core, s'.core) && Steps(s, t, ch, s') && ReadsOk(s) && k in s'.pool && s'.pool[k].Driver? {
      var c, fr, g := s.core, s.pool[t], s'.pool[k].f;
      assert FrameWf(c, fr) && FrameScoped(c, fr);
      CallKinds(c, fr, ch);
      ContKinds(c, fr, ch);
      if k in s.pool && s.pool[k] == s'.pool[k] {
        assert FrameWf(c, s.pool[k]) && FrameScoped(c, s.pool[k]);
        DriverKnown(c, g, s.pool[k].pc);
        GrowsFixed(c, s'.core, g);
        ScopedKept(c, s'.core, c.fibers[g], s'.core.fibers[g], s.pool[k].pc);
      } else if fr.Driver? {
        DriverKnown(c, g, fr.pc);
        OwnNext(c, g, fr.pc, ch);
        GrowsFixed(c, s'.core, g);
        ScopedNext(c, c.fibers[g], fr.pc, ch);
        UnloadScoped(c, c.fibers[g], s'.pool[k].pc);
        ScopedKept(c, s'.core, c.fibers[g], s'.core.fibers[g], s'.pool[k].pc);
      } else if g in s'.core.fibers {
        TrivialScoped(s'.core, s'.core.fibers[g], s'.pool[k].pc);
      }
    }
  }

  lemma UnloadScoped(c: Core, fib: Fiber, pc: Pc)
    ensures pc.Unload? || pc.PassEnd? || pc.ReloadMid? || pc.FailMid? ==> PcScoped(c, fib, pc)
  {}

  lemma TrivialScoped(c: Core, fib: Fiber, pc: Pc)
    ensures pc == PassStart ==> PcScoped(c, fib, pc)
  {}

  lemma {:induction false} ReadsRun(tr: seq<Sys>, i: nat)
    requires Run(tr) && i < |tr|
    ensures ReadsOk(tr[i])
  {
    hide Inv, Init, Steps, Grows, FrameScoped, SysWf;
    if i == 0 {
      ReadsInit(tr[0]);
    } else {
      var s, s' := tr[i - 1], tr[i];
      InvRun(tr, i - 1);
      InvSysWf(s);
      ReadsRun(tr, i - 1);
      assert Move(tr, i - 1);
      NextWf(s, s');
      if t, ch :| Steps(s, t, ch, s') {
        forall k | k in s'.pool ensures FrameScoped(s'.core, s'.pool[k]) { ReadsFrame(s, t, ch, s', k); }
      } else {
        ReadsCall(s, s');
      }
    }
  }

  lemma ReadsCall(s: Sys, s': Sys)
    ensures ReadsOk(s) && (exists fr :: Calls(s, fr, s')) ==> ReadsOk(s')
  {
    hide PcScoped;
  }

  lemma ReadsInit(s: Sys)
    ensures Init(s) ==> ReadsOk(s)
  {}

  // ----- from the commit to the end of the unwind -----

  /** The driver of `f` commits a generation with the bindings `got`. */
  ghost predicate CommitsAt(s: Sys, t: nat, ch: Choice, s': Sys, f: nat, got: map<Name, nat>) {
    f != 0 && Steps(s, t, ch, s') && s.pool[t] == Driver(f, LoadCommit(got))
  }

  /** While a generation that committed `got` stands, its snapshot holds these bindings, each registered under the
      fiber's own label for the name, and registrations of the fiber itself. */
  ghost predicate Holding(c: Core, f: nat, got: map<Name, nat>) {
    && f in c.fibers && c.fibers[f].snapshot.Some?
    && (forall n :: n in c.fibers[f].snapshot.value ==> HoldsFor(c, c.fibers[f], f, got, n))
  }

  predicate HoldsFor(c: Core, fib: Fiber, f: nat, got: map<Name, nat>, n: Name) {
    fib.snapshot.Some? && n in fib.snapshot.value &&
    var e := fib.snapshot.value[n];
    && e in c.store && c.store[e].name == n
    && (c.store[e].provider == f || (n in got && e == got[n] && c.store[e].at == LabelOf(fib, n)))
  }

  lemma CommitHolds(s: Sys, t: nat, ch: Choice, s': Sys, f: nat, got: map<Name, nat>)
    requires SysWf(s) && ReadsOk(s) && CommitsAt(s, t, ch, s', f, got)
    ensures f in s.core.fibers && Holding(s'.core, f, got) && got.Keys == s'.core.fibers[f].fixed.inject
    ensures s'.core.fibers[f].life.epoch == Gen(KeysOf(s.core, got)) && GotWf(s.core, got.Keys, got)
  {
    hide CoreWf, Exec, KeysOf;
    var c := s.core;
    assert FrameWf(c, s.pool[t]) && FrameScoped(c, s.pool[t]);
    DriverKnown(c, f, LoadCommit(got));
    OwnStep(c, f, LoadCommit(got), ch);
    assert PcScoped(c, c.fibers[f], LoadCommit(got));
    assert PcWf(c, c.fibers[f], LoadCommit(got));
  }

  lemma NothingCommitted(s: Sys, t: nat, f: nat)
    requires LifeOk(s, f) && f in s.core.fibers && f != 0 && t in s.pool && Owns(s.pool[t], f)
      && s.pool[t].pc.LoadCommit?
    ensures s.core.fibers[f].snapshot.None?
  {
    assert PcKnows(s.core.fibers[f], s.pool[t].pc);
  }

  lemma HoldsForKept(c: Core, c': Core, was: Fiber, now: Fiber, f: nat, got: map<Name, nat>, n: Name)
    requires Grows(c, c') && HoldsFor(c, was, f, got, n) && now.fixed == was.fixed && now.snapshot.Some?
    requires n in now.snapshot.value && now.snapshot.value[n] == was.snapshot.value[n]
    ensures HoldsFor(c', now, f, got, n)
  {
    GrowsStore(c, c', was.snapshot.value[n]);
    hide Grows;
  }

  lemma ProvidedHolds(c: Core, fr: Frame, c': Core, f: nat, now: Fiber, got: map<Name, nat>, n: Name)
    requires FrameWf(c, fr) && Grows(c, c') && f in c.fibers && Provides(fr, f, c.fibers[f], now) && n == fr.name
    ensures HoldsFor(c', now, f, got, n)
  {
    assert NumberedFor(c, fr.pv.e, fr.f, fr.owner, Registration);
    GrowsStore(c, c', fr.pv.e);
    hide Grows;
  }

  lemma HoldingStep(s: Sys, t: nat, ch: Choice, s': Sys, f: nat, got: map<Name, nat>)
    requires SysWf(s) && LifeOk(s, f) && Grows(s.core, s'.core) && Steps(s, t, ch, s')
    requires f != 0 && Holding(s.core, f, got) && f in s'.core.fibers && s'.core.fibers[f].snapshot.Some?
    ensures Holding(s'.core, f, got)
  {
    hide CoreWf, FrameWf, Exec, SysWf, Grows, PcKnows, LifeOk, HoldsFor;
    var c, fr, was, now := s.core, s.pool[t], s.core.fibers[f], s'.core.fibers[f];
    assert FrameWf(c, fr) by { assert SysWf(s); }
    Moves(c, fr, ch, f);
    GrowsFixed(c, s'.core, f);
    assert !Commits(c, fr, f, now) by {
      if Commits(c, fr, f, now) { NothingCommitted(s, t, f); }
    }
    forall n | n in now.snapshot.value ensures HoldsFor(s'.core, now, f, got, n) {
      if n in was.snapshot.value && now.snapshot.value[n] == was.snapshot.value[n] {
        HoldsForKept(c, s'.core, was, now, f, got, n);
      } else {
        ProvidedHolds(c, fr, s'.core, f, now, got, n);
      }
    }
  }

  /** The generation that committed after step `i` still stands at `j`. */
  predicate StandsTo(tr: seq<Sys>, i: nat, j: nat, f: nat) {
    forall k :: i < k <= j < |tr| ==> f in tr[k].core.fibers && tr[k].core.fibers[f].snapshot.Some?
  }

  lemma {:induction false} HoldingRun(tr: seq<Sys>, i: nat, j: nat, t: nat, ch: Choice, f: nat, got: map<Name, nat>)
    requires Run(tr) && i < j < |tr| && CommitsAt(tr[i], t, ch, tr[i + 1], f, got) && StandsTo(tr, i, j, f) && f != 0
    ensures Holding(tr[j].core, f, got)
  {
    hide Inv, Steps, ReadsOk, Holding, CommitsAt, Init, Grows;
    if j == i + 1 {
      InvRun(tr, i);
      InvSysWf(tr[i]);
      ReadsRun(tr, i);
      CommitHolds(tr[i], t, ch, tr[j], f, got);
    } else {
      var s, s' := tr[j - 1], tr[j];
      HoldingRun(tr, i, j - 1, t, ch, f, got);
      InvRun(tr, j - 1);
      InvSysWf(s);
      InvLife(s, f);
      assert Move(tr, j - 1);
      NextWf(s, s');
      if u, c :| Steps(s, u, c, s') {
        HoldingStep(s, u, c, s', f, got);
      } else {
        HoldingCall(s, s', f, got);
      }
    }
  }

  lemma HoldingCall(s: Sys, s': Sys, f: nat, got: map<Name, nat>)
    ensures Holding(s.core, f, got) && (exists fr :: Calls(s, fr, s')) ==> Holding(s'.core, f, got)
  {
    hide HoldsFor;
  }

  /** From the commit of a generation to the end of its unwind, whatever its providers do meanwhile: as long as its
      snapshot holds an available binding for an injected name, that binding is the one whose key the committed
      epoch names, and the fiber reads it under its own label; or the fiber has itself registered a service of that
      name since, and reads it if it is under that label. */
  lemma PinnedReads(tr: seq<Sys>, i: nat, j: nat, t: nat, ch: Choice, f: nat, got: map<Name, nat>, name: Name)
    requires Run(tr) && i < j < |tr| && CommitsAt(tr[i], t, ch, tr[i + 1], f, got) && StandsTo(tr, i, j, f)
    requires Available(tr[j].core, f, name)
    ensures f in tr[i + 1].core.fibers && Pinning(tr[i + 1].core.fibers[f], tr[j].core, f, name)
  {
    hide Run, Inv, Grows, ReadsOk;
    assert f != 0;
    hide CommitsAt, Steps;
    HoldingRun(tr, i, j, t, ch, f, got);
    InvRun(tr, i);
    InvSysWf(tr[i]);
    ReadsRun(tr, i);
    CommitHolds(tr[i], t, ch, tr[i + 1], f, got);
    GrowsRun(tr, i, j);
    InvRun(tr, j);
    InvSysWf(tr[j]);
    var c := tr[j].core;
    var fib := c.fibers[f];
    var e := fib.snapshot.value[name];
    assert HoldsFor(c, fib, f, got, name);
    if c.store[e].at == LabelOf(fib, name) {
      assert Shows(c, f, name, LabelOf(fib, name), e);
      ReadsNearest(c, [f], name, LabelOf(fib, name), e);
    }
    if c.store[e].provider != f {
      assert name in got && got[name] in tr[i].core.store;
      GrowsStore(tr[i].core, c, e);
    }
  }

  predicate Available(c: Core, f: nat, name: Name) {
    && f in c.fibers && c.fibers[f].snapshot.Some? && name in c.fibers[f].snapshot.value
    && c.fibers[f].snapshot.value[name] in c.store && c.store[c.fibers[f].snapshot.value[name]].available
  }

  predicate Pinning(committed: Fiber, c: Core, f: nat, name: Name) {
    Available(c, f, name) &&
    var e, at := c.fibers[f].snapshot.value[name], LabelOf(c.fibers[f], name);
    && (c.store[e].at == at ==> ResolveService(c, f, name, at) == Some(e))
    && (c.store[e].provider != f ==>
          && ResolveService(c, f, name, at) == Some(e) && committed.life.epoch.Gen?
          && name in committed.life.epoch.keys && committed.life.epoch.keys[name] == KeyOf(c, e))
  }

  lemma {:induction false} GrowsRun(tr: seq<Sys>, i: nat, j: nat)
    requires Run(tr) && i <= j < |tr|
    ensures Grows(tr[i].core, tr[j].core)
  {
    hide Inv, Next, Grows, Init;
    if i == j {
      GrowsRefl(tr[i].core);
    } else {
      GrowsRun(tr, i, j - 1);
      InvRun(tr, j - 1);
      InvSysWf(tr[j - 1]);
      assert Move(tr, j - 1);
      NextWf(tr[j - 1], tr[j]);
      GrowsTrans(tr[i].core, tr[j - 1].core, tr[j].core);
    }
  }

  /** A snapshot is given up only in the last section of the fiber's own unwind. */
  lemma SnapshotEnds(tr: seq<Sys>, i: nat, f: nat)
    requires Run(tr) && i + 1 < |tr| && f != 0 && f in tr[i].core.fibers && tr[i].core.fibers[f].snapshot.Some?
    requires f in tr[i + 1].core.fibers && tr[i + 1].core.fibers[f].snapshot.None?
    ensures exists t :: t in tr[i].pool && Resets(tr[i].pool[t], f)
  {
    hide Run, Inv;
    var s, s' := tr[i], tr[i + 1];
    InvRun(tr, i);
    InvSysWf(s);
    assert Move(tr, i) by { MoveOf(tr, i); }
    assert exists t, ch :: Steps(s, t, ch, s') by {
      if fr :| Calls(s, fr, s') { CallCore(s, fr, s'); }
    }
    var t, ch :| Steps(s, t, ch, s');
    EndsOwn(s, t, ch, s', f);
  }

  lemma MoveOf(tr: seq<Sys>, i: nat)
    requires Run(tr) && i + 1 < |tr|
    ensures Move(tr, i)
  {
    hide Init, Next;
  }

  lemma EndsOwn(s: Sys, t: nat, ch: Choice, s': Sys, f: nat)
    requires SysWf(s) && Steps(s, t, ch, s') && f != 0 && f in s.core.fibers && s.core.fibers[f].snapshot.Some?
    requires f in s'.core.fibers && s'.core.fibers[f].snapshot.None?
    ensures Resets(s.pool[t], f)
  {
    hide CoreWf, Exec, DriverLife, DriverDrive, DriverErr, UnloadLife;
    var c, fr := s.core, s.pool[t];
    assert FrameWf(c, fr);
    if Owns(fr, f) { OwnStep(c, f, fr.pc, ch); } else { ForeignStep(c, fr, ch, f); }
  }

  // ----- the provider's own reads -----

  /** The driver of `provide` puts what it registered into the snapshot of its fiber. */
  ghost predicate Keeps(s: Sys, t: nat, ch: Choice, s': Sys, fr: Frame) {
    && Steps(s, t, ch, s') && s.pool[t] == fr && fr.Provide? && fr.pv.PvSnapshot?
    && fr.f in s.core.fibers && s.core.fibers[fr.f].snapshot.Some?
  }

  /** A provider with a snapshot reads its own service from then on, before anybody was notified of it. */
  lemma ProviderSees(tr: seq<Sys>, i: nat, t: nat, ch: Choice, fr: Frame)
    requires Run(tr) && i + 1 < |tr| && Keeps(tr[i], t, ch, tr[i + 1], fr) && fr.pv.e in tr[i].core.store
    requires tr[i].core.store[fr.pv.e].available
    ensures ResolveService(tr[i + 1].core, fr.f, fr.name, fr.at) == Some(fr.pv.e)
  {
    hide Run, Inv, CoreWf;
    InvRun(tr, i + 1);
    InvSysWf(tr[i + 1]);
    var c := tr[i + 1].core;
    assert Shows(c, fr.f, fr.name, fr.at, fr.pv.e);
    ReadsNearest(c, [fr.f], fr.name, fr.at, fr.pv.e);
  }

  /** A disposer takes the name of its service out of its provider's snapshot, whatever binding is there. */
  lemma WithdrawnUnseen(tr: seq<Sys>, i: nat, t: nat, ch: Choice, e: nat)
    requires Run(tr) && i + 1 < |tr| && Steps(tr[i], t, ch, tr[i + 1]) && tr[i].pool[t] == Disposer(e, UnSnapshot)
    ensures var b, c := tr[i].core.store[e], tr[i + 1].core;
      b.provider in c.fibers && forall k :: !Shows(c, b.provider, b.name, b.at, k)
  {
    hide Run, Inv, CoreWf;
    InvRun(tr, i);
    InvSysWf(tr[i]);
    BindingFacts(tr[i].core, e);
  }
}
