/** The theorems of the reactive core, over every run of the machine. */
module ReactiveTheorems {
  import opened Options
  import opened Reactive
  import opened ReactiveWf
  import opened ReactiveDriver
  import opened ReactiveQuiescence
  import opened ReactiveRuntimes
  import opened ReactiveLifecycle
  import opened ReactiveRequests
  import opened ReactiveEntries
  import opened ReactiveRoot
  import opened ReactiveSnapshots
  import opened ReactiveSupport
  import opened ReactiveEffects
  import opened ReactiveOwnership
  import opened ReactiveDisposal
  import opened ReactiveChildren

  // ----- the invariant of all runs -----

  ghost predicate FiberInv(s: Sys, f: nat) {
    LifeOk(s, f) && RequestsOk(s, f) && SnapOk(s, f) && SeqOk(s, f)
  }

  /** What the effect trees keep. */
  ghost predicate EffectsInv(s: Sys) {
    TreeOk(s) && TracedOk(s) && SlotsOk(s) && ChildrenOk(s)
  }

  ghost predicate Inv(s: Sys) {
    && SysWf(s) && SingleOwner(s) && RuntimesOk(s) && HoldersOk(s) && RootOk(s) && EffectsInv(s)
    && (forall f :: f in s.core.fibers ==> FiberInv(s, f))
  }

  lemma InvInit(s: Sys)
    ensures Init(s) ==> Inv(s) && AllConsistent(s)
  {
    hide EffectsInv, RootOk, FiberInv, AllConsistent, FrameWf;
    if Init(s) {
      EffectsInit(s);
      OthersInit(s);
      assert !HasOwner(s.pool, 0);
    }
  }

  lemma EffectsInit(s: Sys)
    ensures Init(s) ==> EffectsInv(s)
  {}

  lemma OthersInit(s: Sys)
    ensures Init(s) ==> RootOk(s) && AllConsistent(s) && forall f :: f in s.core.fibers ==> FiberInv(s, f)
  {
    if Init(s) {
      assert forall f :: f in s.core.fibers ==> f == 0;
      assert !Finishing(s.pool);
    }
  }

  lemma FiberInvStep(s: Sys, t: nat, ch: Choice, s': Sys, f: nat)
    ensures Inv(s) && Steps(s, t, ch, s') && SysWf(s') && SingleOwner(s') && f in s'.core.fibers ==> FiberInv(s', f)
  {
    hide Steps, SysWf, EffectsInv, RuntimesOk;
    if Inv(s) && Steps(s, t, ch, s') && SysWf(s') && SingleOwner(s') && f in s'.core.fibers {
      if f in s.core.fibers {
        assert FiberInv(s, f);
      } else {
        assert LifeOk(s, f) && RequestsOk(s, f) && SnapOk(s, f) && SeqOk(s, f);
      }
      hide SysWf, LifeOk, RequestsOk, SnapOk, SeqOk, Steps;
      LifeStep(s, t, ch, s', f);
      RequestsStep(s, t, ch, s', f);
      SnapStep(s, t, ch, s', f);
      SeqStep(s, t, ch, s', f);
    }
  }

  lemma EffectsInvStep(s: Sys, t: nat, ch: Choice, s': Sys)
    ensures Inv(s) && Steps(s, t, ch, s') && SysWf(s') && HoldersOk(s') ==> EffectsInv(s')
  {
    hide SysWf, SingleOwner, RuntimesOk, HoldersOk, RootOk, Steps, TreeOk;
    hide TracedOk, SlotsOk, ChildrenOk, LifeOk, RequestsOk, SnapOk, SeqOk;
    if Inv(s) && Steps(s, t, ch, s') && SysWf(s') && HoldersOk(s') {
      forall f | f in s.core.fibers ensures LifeOk(s, f) { assert FiberInv(s, f); }
      TreeStep(s, t, ch, s');
      TracedAfter(s, t, ch, s');
      SlotsStep(s, t, ch, s');
      ChildrenStep(s, t, ch, s');
    }
  }

  lemma EffectsInvCall(s: Sys, fr: Frame, s': Sys)
    ensures Inv(s) && Calls(s, fr, s') ==> EffectsInv(s')
  {
    hide SysWf, SingleOwner, RuntimesOk, HoldersOk, RootOk, FiberInv, Calls, TreeOk, TracedOk, SlotsOk, ChildrenOk;
    TreeCall(s, fr, s');
    TracedCall(s, fr, s');
    SlotsCall(s, fr, s');
    ChildrenCall(s, fr, s');
  }

  lemma InvNext(s: Sys, s': Sys)
    ensures Inv(s) && Next(s, s') ==> Inv(s')
  {
    hide SysWf, SingleOwner, RuntimesOk, HoldersOk, RootOk, EffectsInv, FiberInv, Steps, Calls, Grows;
    if Inv(s) && Next(s, s') {
      NextWf(s, s');
      if t, ch :| Steps(s, t, ch, s') {
        hide Steps;
        OwnerStep(s, t, ch, s');
        RuntimesStep(s, t, ch, s');
        HoldersStep(s, t, ch, s');
        RootStep(s, t, ch, s');
        EffectsInvStep(s, t, ch, s');
        forall f | f in s'.core.fibers ensures FiberInv(s', f) { FiberInvStep(s, t, ch, s', f); }
      } else {
        var fr :| Calls(s, fr, s');
        CallCore(s, fr, s');
        hide Calls;
        OwnerCall(s, fr, s');
        RuntimesCall(s, fr, s');
        HoldersCall(s, fr, s');
        RootCall(s, fr, s');
        EffectsInvCall(s, fr, s');
        forall f | f in s'.core.fibers ensures FiberInv(s', f) { FiberInvCall(s, fr, s', f); }
      }
    }
  }

  lemma CallCore(s: Sys, fr: Frame, s': Sys)
    ensures Calls(s, fr, s') ==> s'.core == s.core
  {}

  lemma FiberInvCall(s: Sys, fr: Frame, s': Sys, f: nat)
    ensures SysWf(s) && Calls(s, fr, s') && FiberInv(s, f) ==> FiberInv(s', f)
  {
    hide SysWf, LifeOk, RequestsOk, SnapOk, SeqOk, Calls;
    LifeCall(s, fr, s', f);
    RequestsCall(s, fr, s', f);
    SnapCall(s, fr, s', f);
    SeqCall(s, fr, s', f);
  }

  lemma {:induction false} InvRun(tr: seq<Sys>, i: nat)
    requires Run(tr) && i < |tr|
    ensures Inv(tr[i])
  {
    hide Inv, Next, Init, AllConsistent;
    if i == 0 { InvInit(tr[0]); } else { InvRun(tr, i - 1); assert Move(tr, i - 1); InvNext(tr[i - 1], tr[i]); }
  }

  lemma ConsistentNext(s: Sys, s': Sys)
    ensures Inv(s) && AllConsistent(s) && Aligned(s.core) && Next(s, s') ==> AllConsistent(s')
  {
    hide SysWf, SingleOwner, RuntimesOk, HoldersOk, RootOk, FiberInv, Consistent, Aligned, AllAttached, Steps;
    hide Calls, Grows, EffectsInv;
    if Inv(s) && AllConsistent(s) && Aligned(s.core) && Next(s, s') {
      NextWf(s, s');
      InvNext(s, s');
      PlacedAttached(s);
      if t, ch :| Steps(s, t, ch, s') {
        hide Steps;
        forall f | f in s'.core.fibers ensures Consistent(s', f) { ConsistentStep(s, t, ch, s', f); }
      } else {
        var fr :| Calls(s, fr, s');
        CallCore(s, fr, s');
        hide Calls;
        forall f | f in s'.core.fibers ensures Consistent(s', f) { ConsistentCall(s, fr, s', f); }
      }
    }
  }

  /** Every registration of the run is under its provider's own label while it is registered. */
  predicate AlignedRun(tr: seq<Sys>) {
    forall i :: 0 <= i < |tr| ==> Aligned(tr[i].core)
  }

  lemma {:induction false} ConsistentRun(tr: seq<Sys>, i: nat)
    requires Run(tr) && AlignedRun(tr) && i < |tr|
    ensures AllConsistent(tr[i])
  {
    hide Inv, Next, Init, Aligned, AllConsistent;
    if i == 0 {
      InvInit(tr[0]);
    } else {
      InvRun(tr, i - 1);
      ConsistentRun(tr, i - 1);
      assert Move(tr, i - 1);
      ConsistentNext(tr[i - 1], tr[i]);
    }
  }

  // ----- one driver, no lost request -----

  /** At most one activation is inside the transition driver of a fiber, and exactly while it is busy. */
  lemma SingleDriver(tr: seq<Sys>, i: nat, f: nat)
    requires Run(tr) && i < |tr| && f in tr[i].core.fibers
    ensures var s := tr[i];
      && (s.core.fibers[f].drive.busy <==> exists t :: t in s.pool && Owns(s.pool[t], f))
      && (forall t, u :: t in s.pool && u in s.pool && Owns(s.pool[t], f) && Owns(s.pool[u], f) ==> t == u)
  {
    hide Run, FiberInv, SysWf, EffectsInv, RuntimesOk, HoldersOk, RootOk;
    InvRun(tr, i);
    assert tr[i].core.fibers[f].drive.busy <==> HasOwner(tr[i].pool, f);
  }

  /** When the driver lets a fiber go, every recorded request was followed by a pass that started after
      it; only a Dispose that is still on its way to its own refresh can have left a mark. */
  lemma NoLostRequest(tr: seq<Sys>, i: nat)
    requires Run(tr) && i < |tr|
    ensures forall f :: f != 0 && f in tr[i].core.fibers && !tr[i].core.fibers[f].drive.busy ==>
      var d, s := tr[i].core.fibers[f].drive, tr[i];
      && (!DisposePending(s.pool, f) ==> d.served == d.requests && !d.dirty)
      && (d.forceReload && !s.core.fibers[f].disposed ==> RefreshPending(s.pool, f))
  {
    hide Run, SysWf, EffectsInv, LifeOk, RuntimesOk, RootOk;
    InvRun(tr, i);
    assert forall f :: f in tr[i].core.fibers ==> FiberInv(tr[i], f);
  }

  /** One drive makes at most one pass more than the number of requests recorded while it ran, and a pass
      that is under way covers every request except those that marked the fiber for another one. */
  lemma PassesBounded(tr: seq<Sys>, i: nat, t: nat, f: nat)
    requires Run(tr) && i < |tr| && f in tr[i].core.fibers && f != 0 && t in tr[i].pool
    requires Owns(tr[i].pool[t], f)
    ensures var d := tr[i].core.fibers[f].drive;
      && d.passes <= d.marks + 1
      && (tr[i].pool[t].pc != PassStart ==> d.served == d.requests || d.dirty)
  {
    hide Run, SysWf, EffectsInv, LifeOk, RuntimesOk, RootOk, HoldersOk;
    InvRun(tr, i);
    assert FiberInv(tr[i], f);
    assert PassKnows(tr[i].core.fibers[f], tr[i].pool[t].pc, RefreshPending(tr[i].pool, f));
  }

  // ----- one generation at a time -----

  /** Between passes a plugin's fiber that nobody disposed of is Pending, Active or Failed, live exactly
      when Active, and keeps a snapshot exactly while a generation stands. */
  lemma RestingStates(tr: seq<Sys>, i: nat)
    requires Run(tr) && i < |tr|
    ensures forall f :: f != 0 && f in tr[i].core.fibers ==>
      var fib := tr[i].core.fibers[f];
      !fib.drive.busy && !fib.disposed ==>
      && fib.life.state in {Pending, Active, Failed}
      && (fib.life.live <==> fib.life.state == Active)
      && (fib.life.live <==> fib.life.started) && (fib.life.live <==> fib.snapshot.Some?)
      && (fib.life.state == Active ==> fib.life.epoch.Gen? && !fib.err)
      && (fib.life.state == Pending ==> fib.life.epoch == Inactive)
      && (!fib.life.live ==> fib.list <= fib.strays)
  {
    hide Run, SysWf, EffectsInv;
    InvRun(tr, i);
    assert forall f :: f in tr[i].core.fibers ==> FiberInv(tr[i], f);
    assert forall f :: f != 0 && f in tr[i].core.fibers && !tr[i].core.fibers[f].drive.busy ==>
      AtRest(tr[i].core.fibers[f]) && Accounted(tr[i].core.fibers[f]);
  }

  /** The driver `t` of `f` goes from the config check into the plugin body. */
  ghost predicate StartsBody(s: Sys, t: nat, ch: Choice, s': Sys, f: nat) {
    && Steps(s, t, ch, s') && f != 0 && s.pool[t] == Driver(f, Config)
    && t in s'.pool && s'.pool[t] == Driver(f, Body)
  }

  ghost predicate CleanStart(s: Sys, c': Core, f: nat) {
    && f in s.core.fibers && f in c'.fibers
    && (var was := s.core.fibers[f];
      && was.life.live && !was.life.started && was.life.state == Loading && was.list <= was.strays
      && was.snapshot.Some? && was.life.epoch.Gen? && was.life.epoch.keys.Keys == was.fixed.inject
      && forall n :: n in was.snapshot.value ==> EntryOk(s.core, s.pool, f, was, n, was.snapshot.value[n]))
    && c'.fibers[f].life.started
  }

  /** A plugin body starts only where no generation is left: nothing of a started body, nothing listed by
      one, and a snapshot in which every binding is the one its epoch names or the fiber's own. */
  lemma BodyStartsClean(tr: seq<Sys>, i: nat)
    requires Run(tr) && i + 1 < |tr|
    ensures var s, s' := tr[i], tr[i + 1]; forall t, ch, f :: StartsBody(s, t, ch, s', f) ==> CleanStart(s, s'.core, f)
  {
    hide LifeOk, FrameWf, EffectsInv;
    var s, s' := tr[i], tr[i + 1];
    InvRun(tr, i);
    forall t, ch, f | StartsBody(s, t, ch, s', f) ensures CleanStart(s, s'.core, f) {
      hide Run;
      assert FrameWf(s.core, s.pool[t]) && FiberInv(s, f) && FiberWf(s.core, f, s.core.fibers[f]);
      StepWf(s, t, ch, s');
      GrowsFixed(s.core, s'.core, f);
      hide SysWf, Steps, RequestsOk, SeqOk, LifeOk, EntryOk, SingleOwner, RuntimesOk, HoldersOk, RootOk;
      BodyStarts(s, t, ch, s', f);
    }
  }

  // ----- forced reloads -----

  /** The driver `t` of plugin `f` takes a force mark, and nobody has disposed of the fiber. */
  ghost predicate TakesForce(s: Sys, t: nat, ch: Choice, s': Sys, f: nat) {
    && Steps(s, t, ch, s') && s.pool[t] == Driver(f, SyncTop) && f != 0 && f in s.core.fibers
    && s.core.fibers[f].drive.forceReload && !s.core.fibers[f].disposed
  }

  /** The driver is in the middle of a forced reload, with nothing left of the generation that was standing. */
  predicate Reloaded(s: Sys, t: nat, f: nat) {
    t in s.pool && s.pool[t] == Driver(f, ReloadMid) && f in s.core.fibers && Clean(s.core.fibers[f])
  }

  predicate Reloading(s: Sys, t: nat, f: nat) {
    t in s.pool && s.pool[t].Driver? && s.pool[t].f == f && s.pool[t].pc.Unload? && s.pool[t].pc.caller == ByReload
  }

  lemma ForceStarts(s: Sys, t: nat, ch: Choice, s': Sys, f: nat)
    ensures SysWf(s) && TakesForce(s, t, ch, s', f) ==> Reloading(s', t, f)
  {
    hide CoreWf, Exec, PcWf;
    if SysWf(s) && TakesForce(s, t, ch, s', f) {
      CoreFacts(s.core, f);
      OwnNext(s.core, f, SyncTop, ch);
    }
  }

  lemma ReloadGoesOn(s: Sys, u: nat, ch: Choice, s': Sys, t: nat, f: nat)
    ensures SysWf(s) && SysWf(s') && LifeOk(s', f) && Steps(s, u, ch, s') && f != 0 && Reloading(s, t, f) ==>
      Reloading(s', t, f) || Reloaded(s', t, f)
  {
    hide CoreWf, FrameWf, Exec, LifeOk, Reloaded;
    if SysWf(s) && SysWf(s') && LifeOk(s', f) && Steps(s, u, ch, s') && f != 0 && Reloading(s, t, f) && u == t {
      OwnNext(s.core, f, s.pool[t].pc, ch);
      if s'.pool[t] == Driver(f, ReloadMid) { ReloadClean(s', t, f); }
    }
  }

  lemma ReloadCall(s: Sys, s': Sys, t: nat, f: nat)
    ensures SysWf(s) && (exists fr :: Calls(s, fr, s')) && Reloading(s, t, f) ==> Reloading(s', t, f)
  {
    hide CoreWf, FrameWf;
  }

  lemma ReloadClean(s: Sys, t: nat, f: nat)
    ensures SysWf(s) && LifeOk(s, f) && t in s.pool && s.pool[t] == Driver(f, ReloadMid) && f != 0 ==> Reloaded(s, t, f)
  {
    hide CoreWf;
    if SysWf(s) && LifeOk(s, f) && t in s.pool && s.pool[t] == Driver(f, ReloadMid) && f != 0 {
      assert FrameWf(s.core, s.pool[t]);
      assert PcKnows(s.core.fibers[f], ReloadMid);
    }
  }

  lemma {:induction false} ReloadRun(tr: seq<Sys>, i: nat, j: nat, t: nat, ch: Choice, f: nat) returns (k: nat)
    requires Run(tr) && i < j < |tr| && TakesForce(tr[i], t, ch, tr[i + 1], f)
    ensures i < k <= j && (Reloaded(tr[k], t, f) || (k == j && Reloading(tr[j], t, f)))
  {
    hide Inv, Init, Steps, TakesForce, Reloading, Reloaded, LifeOk, SysWf;
    if j == i + 1 {
      k := j;
      InvRun(tr, i);
      InvSysWf(tr[i]);
      ForceStarts(tr[i], t, ch, tr[j], f);
    } else {
      k := ReloadRun(tr, i, j - 1, t, ch, f);
      if !Reloaded(tr[k], t, f) {
        k := j;
        var s, s' := tr[j - 1], tr[j];
        InvRun(tr, j - 1);
        InvRun(tr, j);
        InvSysWf(s);
        InvSysWf(s');
        InvLife(s', f);
        assert Move(tr, j - 1);
        ForcePlugin(tr[i], t, ch, tr[i + 1], f);
        if u, c :| Steps(s, u, c, s') { ReloadGoesOn(s, u, c, s', t, f); } else { ReloadCall(s, s', t, f); }
      }
    }
  }

  lemma InvSysWf(s: Sys)
    ensures Inv(s) ==> SysWf(s)
  {
    hide CoreWf, FrameWf, SingleOwner, RuntimesOk, HoldersOk, RootOk, EffectsInv, FiberInv;
  }

  lemma InvLife(s: Sys, f: nat)
    ensures Inv(s) ==> LifeOk(s, f)
  {
    hide SysWf, SingleOwner, RuntimesOk, HoldersOk, RootOk, EffectsInv, RequestsOk, SnapOk, SeqOk, PcKnows, AtRest;
    if Inv(s) && f in s.core.fibers { assert FiberInv(s, f); }
  }

  lemma ForcePlugin(s: Sys, t: nat, ch: Choice, s': Sys, f: nat)
    ensures TakesForce(s, t, ch, s', f) ==> f != 0
  {}

  /** A forced reload is not dropped: after the driver of an undisposed plugin took the mark, it cannot be at the
      end of a pass before it has ended whatever generation stood. */
  lemma ForceEndsGeneration(tr: seq<Sys>, i: nat, j: nat, t: nat, ch: Choice, f: nat)
    requires Run(tr) && i < j < |tr| && TakesForce(tr[i], t, ch, tr[i + 1], f)
    requires t in tr[j].pool && tr[j].pool[t] == Driver(f, PassEnd)
    ensures exists k :: i < k < j && Reloaded(tr[k], t, f)
  {
    hide Run, TakesForce;
    var k := ReloadRun(tr, i, j, t, ch, f);
    assert k < j && Reloaded(tr[k], t, f);
  }

  /** A started generation ends only in the last section of an unwind, and by then every effect its fiber ever
      made is finished, or being torn down by an activation that holds it, or part of such an effect's tree. */
  lemma GenerationsEndUnwound(tr: seq<Sys>, i: nat, t: nat, ch: Choice, f: nat, e: nat)
    requires Run(tr) && i + 1 < |tr| && Steps(tr[i], t, ch, tr[i + 1]) && f != 0 && f in tr[i].core.fibers
    requires f in tr[i + 1].core.fibers
    requires tr[i].core.fibers[f].life.started && !tr[i + 1].core.fibers[f].life.started
    requires e in tr[i].core.entries && e in tr[i].core.store && tr[i].core.store[e].provider == f
    ensures Owns(tr[i].pool[t], f) && tr[i].pool[t].pc.Unload? && tr[i].pool[t].pc.u == UReset
    ensures Going(tr[i].core, tr[i].pool, e)
  {
    hide Run, SysWf, SingleOwner, RuntimesOk, HoldersOk, RootOk, Steps;
    hide TreeOk, TracedOk, SlotsOk, ChildrenOk, LifeOk, RequestsOk, SnapOk, SeqOk;
    hide Reached, Going;
    var s := tr[i];
    InvRun(tr, i);
    assert FiberInv(s, f);
    StepActivation(s, t, ch, tr[i + 1]);
    UnwindEnds(s, t, ch, tr[i + 1], f);
    forall k | k in s.core.entries ensures !Reached(s, f, k) { ResetReachesNothing(s, t, f, k); }
    UnreachedGoing(s, f, e);
  }

  lemma StepActivation(s: Sys, t: nat, ch: Choice, s': Sys)
    ensures Steps(s, t, ch, s') ==> t in s.pool
  {}

  /** The registry never holds a finished entry. */
  lemma RegisteredUnfinished(tr: seq<Sys>, i: nat, at: Label)
    requires Run(tr) && i < |tr| && at in tr[i].core.bindings
    ensures Unfinished(tr[i].core, tr[i].core.bindings[at])
  {
    hide Run, FiberInv, SysWf, RuntimesOk, RootOk, TreeOk, HoldersOk, TracedOk;
    InvRun(tr, i);
    assert SlotOk(tr[i].core, at);
  }

  // ----- disposal -----

  /** No activation drives, disposes of or refreshes fiber `f`. */
  predicate Undisturbed(s: Sys, f: nat) {
    forall t :: t in s.pool ==> !Drives(s.pool[t], f) && !AsksDispose(s.pool[t], f)
  }

  /** Disposal wins every race: once no driver and no Dispose call of a disposed fiber is in flight, it is
      in its final state with nothing of a generation left. */
  lemma DisposalFinal(tr: seq<Sys>, i: nat)
    requires Run(tr) && i < |tr|
    ensures forall f :: f in tr[i].core.fibers && tr[i].core.fibers[f].disposed && Undisturbed(tr[i], f) ==>
      var fib := tr[i].core.fibers[f];
      && fib.life.state == Disposed && fib.snapshot.None?
      && (f != 0 ==> !fib.life.live && !fib.life.started && fib.list <= fib.strays)
      && (f == 0 ==> fib.list == {})
  {
    hide Run, SysWf;
    InvRun(tr, i);
    var s := tr[i];
    forall f | f in s.core.fibers && s.core.fibers[f].disposed && Undisturbed(s, f)
      ensures var fib := s.core.fibers[f];
        && fib.life.state == Disposed && fib.snapshot.None?
        && (f != 0 ==> !fib.life.live && !fib.life.started && fib.list <= fib.strays)
        && (f == 0 ==> fib.list == {})
    {
      assert FiberInv(s, f);
      if f == 0 {
        RootUndisturbed(s);
      } else {
        assert !HasOwner(s.pool, f);
        assert IdleKnows(s.core.fibers[f], RefreshPending(s.pool, f), DisposePending(s.pool, f));
        assert AtRest(s.core.fibers[f]);
      }
    }
  }

  lemma RootUndisturbed(s: Sys)
    ensures SysWf(s) && RootOk(s) && Undisturbed(s, 0) ==>
      !Finishing(s.pool) && !Resetting(s.pool, s.core.fibers[0].life.live)
      && !Clearing(s.pool, s.core.fibers[0].life.live)
  {
    hide RootOk, CoreWf, PcWf;
    if SysWf(s) && RootOk(s) && Undisturbed(s, 0) {
      forall t | t in s.pool ensures !RootEnding(s.pool[t]) {
        assert FrameWf(s.core, s.pool[t]);
      }
    }
  }

  /** No step makes a disposed fiber live again, and the final state is never left. */
  lemma DisposalTerminal(tr: seq<Sys>, i: nat)
    requires Run(tr) && i + 1 < |tr|
    ensures forall f :: f != 0 && f in tr[i].core.fibers && tr[i].core.fibers[f].disposed ==>
      && f in tr[i + 1].core.fibers && tr[i + 1].core.fibers[f].disposed
      && (!tr[i].core.fibers[f].life.live ==> !tr[i + 1].core.fibers[f].life.live)
      && (tr[i].core.fibers[f].life.state == Disposed ==> tr[i + 1].core.fibers[f].life.state == Disposed)
  {
    hide Steps, SysWf, LifeOk, EffectsInv;
    InvRun(tr, i);
    var s, s' := tr[i], tr[i + 1];
    assert Move(tr, i);
    if t, ch :| Steps(s, t, ch, s') {
      forall f | f != 0 && f in s.core.fibers && s.core.fibers[f].disposed
        ensures f in s'.core.fibers && s'.core.fibers[f].disposed
        ensures !s.core.fibers[f].life.live ==> !s'.core.fibers[f].life.live
        ensures s.core.fibers[f].life.state == Disposed ==> s'.core.fibers[f].life.state == Disposed
      {
        assert FiberInv(s, f);
        NeverLiveAgain(s, t, ch, s', f);
      }
    } else {
      var fr :| Calls(s, fr, s');
    }
  }

  /** A disposed fiber whose list is empty, or will be before its started generation counts as unwound. */
  predicate Empties(c: Core, f: nat) {
    f in c.fibers && c.fibers[f].disposed && (c.fibers[f].life.started || c.fibers[f].list == {})
  }

  lemma EmptiesStep(s: Sys, t: nat, ch: Choice, s': Sys, f: nat)
    ensures SysWf(s) && SingleOwner(s) && LifeOk(s, f) && Steps(s, t, ch, s') && f != 0 && Empties(s.core, f) ==>
      Empties(s'.core, f)
  {
    hide CoreWf, Exec, PcWf, LifeOk, DriverFiber;
    if SysWf(s) && SingleOwner(s) && LifeOk(s, f) && Steps(s, t, ch, s') && f != 0 && Empties(s.core, f) {
      var c, fr := s.core, s.pool[t];
      assert FrameWf(c, fr);
      NeverLiveAgain(s, t, ch, s', f);
      if c.fibers[f].life.started && !s'.core.fibers[f].life.started { UnwindEnds(s, t, ch, s', f); }
      if Owns(fr, f) {
        OwnStep(c, f, fr.pc, ch);
        ListKept(c, c.fibers[f], fr.pc, ch);
      } else {
        ForeignStep(c, fr, ch, f);
      }
    }
  }

  /** The driver writes the list only to empty it. */
  lemma ListKept(c: Core, fib: Fiber, pc: Pc, ch: Choice)
    ensures PcWf(c, fib, pc) ==>
      (!pc.Unload? ==> DriverFiber(c, fib, pc, ch).list == fib.list)
      && (pc.Unload? ==> UnloadFiber(fib, pc.u).list == fib.list || UnloadFiber(fib, pc.u).list == {})
  {
    hide DriverLife, DriverDrive, DriverErr, UnloadLife, PcWf;
  }

  lemma EmptiesNext(s: Sys, s': Sys, f: nat)
    ensures Inv(s) && Next(s, s') && f != 0 && Empties(s.core, f) ==> Empties(s'.core, f)
  {
    hide SysWf, SingleOwner, RuntimesOk, HoldersOk, RootOk, LifeOk, RequestsOk, SnapOk, SeqOk, Steps, Calls;
    hide EffectsInv;
    if Inv(s) && Next(s, s') && f != 0 && Empties(s.core, f) {
      assert FiberInv(s, f);
      if t, ch :| Steps(s, t, ch, s') {
        hide Empties, Steps;
        EmptiesStep(s, t, ch, s', f);
      } else {
        var fr :| Calls(s, fr, s');
        CallCore(s, fr, s');
      }
    }
  }

  lemma {:induction false} EmptiesRun(tr: seq<Sys>, i: nat, j: nat, f: nat)
    requires Run(tr) && i <= j < |tr| && f != 0 && Empties(tr[i].core, f)
    ensures forall k :: i <= k <= j ==> Empties(tr[k].core, f)
  {
    hide Inv, Next, Init, Empties;
    if i < j {
      EmptiesRun(tr, i, j - 1, f);
      InvRun(tr, j - 1);
      assert Move(tr, j - 1);
      EmptiesNext(tr[j - 1], tr[j], f);
    }
  }

  /** Disposing of a fiber whose body's generation started leaves an empty effect list: nothing it registered
      then, nor anything listed before, outlives the disposal. */
  lemma StartedDisposalEmpties(tr: seq<Sys>, i: nat, j: nat, f: nat)
    requires Run(tr) && i <= j < |tr| && f != 0 && f in tr[i].core.fibers
    requires tr[i].core.fibers[f].disposed && tr[i].core.fibers[f].life.started
    requires f in tr[j].core.fibers && Undisturbed(tr[j], f)
    ensures tr[j].core.fibers[f].disposed && tr[j].core.fibers[f].list == {}
  {
    hide Run;
    EmptiesRun(tr, i, j, f);
    DisposalFinal(tr, j);
  }

  lemma LeavesNext(s: Sys, s': Sys, f: nat, list: set<nat>)
    ensures Inv(s) && Inv(s') && Next(s, s') && Stalled(s, f) && Leaves(s.core, f, list) ==>
      Stalled(s', f) && Leaves(s'.core, f, list)
  {
    hide SysWf, SingleOwner, RuntimesOk, HoldersOk, RootOk, EffectsInv, FiberInv, Stalled, Leaves, Steps, Calls;
    hide Grows;
    if Inv(s) && Inv(s') && Next(s, s') && Stalled(s, f) && Leaves(s.core, f, list) {
      NextWf(s, s');
      if t, ch :| Steps(s, t, ch, s') {
        hide Steps;
        StepWf(s, t, ch, s');
        StalledLeaves(s, t, ch, s', f, list);
      } else {
        var fr :| Calls(s, fr, s');
        CallCore(s, fr, s');
        hide Calls;
        StalledCall(s, fr, s', f);
      }
    }
  }

  lemma {:induction false} LeavesRun(tr: seq<Sys>, i: nat, j: nat, f: nat, list: set<nat>)
    requires Run(tr) && i <= j < |tr| && Stalled(tr[i], f) && Leaves(tr[i].core, f, list)
    ensures forall k :: i <= k <= j ==> Stalled(tr[k], f) && Leaves(tr[k].core, f, list)
  {
    hide Inv, Next, Init, Stalled, Leaves;
    if i < j {
      LeavesRun(tr, i, j - 1, f, list);
      InvRun(tr, j - 1);
      InvRun(tr, j);
      assert Move(tr, j - 1);
      LeavesNext(tr[j - 1], tr[j], f, list);
    }
  }

  /** `Dispose` marks an idle fiber at step `i`. */
  ghost predicate DisposesIdle(tr: seq<Sys>, i: nat, t: nat, ch: Choice, f: nat)
    requires 0 <= i < |tr| - 1
  {
    && Steps(tr[i], t, ch, tr[i + 1]) && tr[i].pool[t] == Disposing(f, DsMark)
    && f != 0 && f in tr[i].core.fibers && !tr[i].core.fibers[f].disposed && !tr[i].core.fibers[f].drive.busy
  }

  /** What disposing of an idle fiber leaves in its effect list: nothing if the fiber was live, and otherwise
      everything listed before but what finished meanwhile through its own handle. */
  lemma DisposalLeaves(tr: seq<Sys>, i: nat, t: nat, ch: Choice, j: nat, f: nat)
    requires Run(tr) && i + 1 <= j < |tr| && DisposesIdle(tr, i, t, ch, f)
    requires f in tr[j].core.fibers && Undisturbed(tr[j], f)
    ensures var was := tr[i].core.fibers[f];
      tr[j].core.fibers[f].list == if was.life.live then {} else Left(tr[j].core, was.list)
  {
    hide Run, SysWf, SingleOwner, RuntimesOk, HoldersOk, RootOk, Steps;
    hide TreeOk, TracedOk, SlotsOk, ChildrenOk, LifeOk, RequestsOk, SnapOk, SeqOk;
    hide Undisturbed;
    var s, s' := tr[i], tr[i + 1];
    InvRun(tr, i);
    InvRun(tr, i + 1);
    assert FiberInv(s, f);
    IdleGeneration(s, f);
    MarkKeeps(s, t, ch, s', f);
    if s.core.fibers[f].life.live { StartedDisposalEmpties(tr, i + 1, j, f); }
    else {
      MarkStalls(s, t, ch, s', f);
      LeavesRun(tr, i + 1, j, f, s.core.fibers[f].list);
    }
  }

  lemma IdleGeneration(s: Sys, f: nat)
    ensures
      && LifeOk(s, f) && f in s.core.fibers && f != 0 && !s.core.fibers[f].drive.busy && !s.core.fibers[f].disposed
      ==> (s.core.fibers[f].life.live <==> s.core.fibers[f].life.started)
          && (s.core.fibers[f].life.live <==> s.core.fibers[f].life.state == Active)
  {}

  lemma MarkKeeps(s: Sys, t: nat, ch: Choice, s': Sys, f: nat)
    ensures Steps(s, t, ch, s') && s.pool[t] == Disposing(f, DsMark) && f in s.core.fibers ==>
      f in s'.core.fibers && s'.core.fibers[f].disposed && s'.core.fibers[f].life == s.core.fibers[f].life
  {
    hide CoreWf, ExecDriver, FrameWf, ExecLoad, ExecRootUnload, ExecNotify, ExecProvide, ExecEffect, ExecDisposer;
  }

  /** Exactly when disposing of an idle fiber empties its list, with no entry of it released by its own handle
      meanwhile: when the fiber was Active, or listed nothing to begin with. */
  lemma DisposalEmptiesIff(tr: seq<Sys>, i: nat, t: nat, ch: Choice, j: nat, f: nat)
    requires Run(tr) && i + 1 <= j < |tr| && DisposesIdle(tr, i, t, ch, f)
    requires f in tr[j].core.fibers && Undisturbed(tr[j], f)
    requires forall e :: e in tr[i].core.fibers[f].list ==> tr[i].core.fibers[f].life.live || Unfinished(tr[j].core, e)
    ensures var was := tr[i].core.fibers[f];
      tr[j].core.fibers[f].list == {} <==> was.life.state == Active || was.list == {}
  {
    hide Run, Undisturbed, Steps, Inv;
    DisposalLeaves(tr, i, t, ch, j, f);
    InvRun(tr, i);
    StatesAgree(tr[i], f);
    var was := tr[i].core.fibers[f];
    if !was.life.live { assert Left(tr[j].core, was.list) == was.list; }
  }

  lemma StatesAgree(s: Sys, f: nat)
    ensures Inv(s) && f in s.core.fibers && f != 0 && !s.core.fibers[f].drive.busy && !s.core.fibers[f].disposed ==>
      (s.core.fibers[f].life.live <==> s.core.fibers[f].life.state == Active)
  {
    hide SysWf, EffectsInv, RuntimesOk, PcKnows, RequestsOk, RootOk, HoldersOk;
    if Inv(s) && f in s.core.fibers && f != 0 && !s.core.fibers[f].drive.busy && !s.core.fibers[f].disposed {
      assert FiberInv(s, f);
    }
  }

  /** What a disposed fiber still has once nothing is in flight, registered services included, it made while
      no generation of it stood. */
  lemma DisposedHoldsStrays(tr: seq<Sys>, i: nat, f: nat, e: nat)
    requires Run(tr) && i < |tr| && Quiet(tr[i]) && f in tr[i].core.fibers && f != 0
    requires tr[i].core.fibers[f].disposed
    requires e in tr[i].core.store && tr[i].core.store[e].provider == f
    requires Unfinished(tr[i].core, e) || AtSlot(tr[i].core, e)
    ensures e in tr[i].core.fibers[f].strays
  {
    hide SysWf, SingleOwner, RuntimesOk, HoldersOk, RootOk, TreeOk, TracedOk, ChildrenOk, RequestsOk, SnapOk;
    hide SeqOk, Run, PcKnows, AtRest;
    var s := tr[i];
    InvRun(tr, i);
    assert FiberInv(s, f);
    if AtSlot(s.core, e) { RegisteredUnfinished(tr, i, s.core.store[e].at); }
    QuietRecorded(s, e);
    DisposalFinal(tr, i);
    assert Accounted(s.core.fibers[f]);
  }

  // ----- children -----

  /** With nothing in flight, a child fiber that nobody disposed of belongs to an Active parent, or was loaded
      while no generation of its parent stood. The root is a parent like any other: disposed of, it has no such
      child left. */
  lemma ServiceNeedsParent(tr: seq<Sys>, i: nat, f: nat)
    requires Run(tr) && i < |tr| && Quiet(tr[i]) && PublishedFiber(tr[i].core, f) && f != 0
    requires !tr[i].core.fibers[f].disposed
    ensures var c := tr[i].core;
      exists p, e ::
      && c.fibers[f].fixed.parent == Some(p) && SlotOf(c, e, f) && Unfinished(c, e)
      && (IsActive(c, p) || (p != 0 && p in c.fibers && e in c.fibers[p].strays))
  {
    hide SysWf, SingleOwner, RuntimesOk, HoldersOk, RootOk, TreeOk, TracedOk, SlotsOk, FiberInv, SlotOf, Run;
    var s := tr[i];
    InvRun(tr, i);
    assert HasSlot(s.core, f);
    var e :| SlotOf(s.core, e, f);
    assert ChildOk(s, e, f);
    SlotParent(s, e, f);
    QuietRecorded(s, e);
    var p := s.core.store[e].provider;
    if p == 0 {
      RootHolds(s, e);
    } else if e !in s.core.fibers[p].strays {
      StandingActive(tr, i, p, e);
    }
    assert s.core.fibers[f].fixed.parent == Some(p) && SlotOf(s.core, e, f) && Unfinished(s.core, e);
  }

  /** With nothing in flight, a root that has an unfinished effect is Active. */
  lemma RootHolds(s: Sys, e: nat)
    requires SysWf(s) && TreeOk(s) && RootOk(s) && Quiet(s)
    requires Unfinished(s.core, e) && e in s.core.store && s.core.store[e].provider == 0
    ensures IsActive(s.core, 0)
  {
    hide SysWf, TreeOk, RootOk;
    QuietListed(s, e);
    RootAtRest(s);
  }

  lemma SlotParent(s: Sys, e: nat, f: nat)
    ensures SysWf(s) && SlotOf(s.core, e, f) ==>
      (var c := s.core; e in c.entries && e in c.store && c.store[e].provider in c.fibers)
      && (var c := s.core; f in c.fibers && c.fibers[f].fixed.parent == Some(c.store[e].provider))
  {
    hide CoreWf, FrameWf;
    BindingFacts(s.core, e);
  }

  /** At rest, a fiber with something of a generation is Active. */
  lemma StandingActive(tr: seq<Sys>, i: nat, p: nat, e: nat)
    requires Run(tr) && i < |tr| && Quiet(tr[i]) && p in tr[i].core.fibers && p != 0
    requires e in tr[i].core.fibers[p].own
    ensures IsActive(tr[i].core, p)
  {
    hide SysWf, RuntimesOk, HoldersOk, RootOk, TreeOk, TracedOk, ChildrenOk, SlotsOk, RequestsOk, SnapOk, SeqOk;
    hide Run, PcKnows;
    var s := tr[i];
    InvRun(tr, i);
    assert FiberInv(s, p) && Accounted(s.core.fibers[p]) && !HasOwner(s.pool, p);
    if s.core.fibers[p].disposed { DisposalFinal(tr, i); }
  }

  // ----- support -----

  lemma InvSeqOk(s: Sys)
    ensures Inv(s) ==> AllSeqOk(s)
  {
    hide SysWf, SingleOwner, RuntimesOk, HoldersOk, RootOk, EffectsInv, LifeOk, RequestsOk, SnapOk, SeqOk;
    if Inv(s) {
      forall f | f in s.core.fibers ensures SeqOk(s, f) { assert FiberInv(s, f); }
    }
  }

  /** In no state of any run, whatever is in flight, do generations support each other in a cycle. */
  lemma NeverSupportCycle(tr: seq<Sys>, i: nat, chain: seq<nat>)
    requires Run(tr) && i < |tr| && |chain| > 1 && SupportChain(tr[i].core, chain)
    ensures chain[0] != chain[|chain| - 1]
  {
    hide Run, Inv, AllSeqOk;
    InvRun(tr, i);
    InvSeqOk(tr[i]);
    NoSupportCycle(tr[i], chain);
  }

  // ----- runtime claims -----

  /** A runtime's claims count exactly the loads in flight on it, and a definition's runtime is registered
      exactly while it has a claim or an attached fiber. */
  lemma ClaimsConserved(tr: seq<Sys>, i: nat, r: nat)
    requires Run(tr) && i < |tr| && r in tr[i].core.rts
    ensures tr[i].core.rts[r].claims == |Claimants(tr[i].pool, r)|
    ensures IsRegistered(tr[i].core, r) <==> tr[i].core.rts[r].claims > 0 || tr[i].core.rts[r].fibers != {}
  {
    hide Run, FiberInv, SysWf, EffectsInv, HoldersOk, RootOk;
    InvRun(tr, i);
    assert RuntimeCounted(tr[i].core, tr[i].pool, r);
  }

  /** No two runtimes of one definition are ever both in use. */
  lemma OneRuntimePerDefinition(tr: seq<Sys>, i: nat, q: nat, r: nat)
    requires Run(tr) && i < |tr| && q in tr[i].core.rts && r in tr[i].core.rts && q != r
    requires tr[i].core.rts[q].def == tr[i].core.rts[r].def
    ensures !InUse(tr[i].core.rts[q]) || !InUse(tr[i].core.rts[r])
  {
    hide Run, FiberInv, SysWf, EffectsInv, HoldersOk, RootOk;
    InvRun(tr, i);
    var s := tr[i];
    assert RuntimeCounted(s.core, s.pool, q) && RuntimeCounted(s.core, s.pool, r);
  }

  // ----- quiescence -----

  /** What holds of every fiber in service once nothing is in flight. */
  ghost predicate Converged(c: Core, f: nat) {
    f in c.fibers &&
    var fib := c.fibers[f];
    && Settled(c, fib)
    && (fib.life.state == Active ==> fib.life.live && fib.life.epoch.Gen? && !fib.err)
    && (fib.life.state == Pending ==> fib.life.epoch == Inactive)
    && fib.life.state in {Pending, Active, Failed}
  }

  /** Quiescent consistency: in an aligned run, with no activation in flight, every fiber in service
      records exactly the epoch the registry gives now; it is Active only if every injected service
      resolves, Pending only if one does not, and otherwise Failed. */
  lemma QuiescentConsistency(tr: seq<Sys>, i: nat)
    requires Run(tr) && AlignedRun(tr) && i < |tr| && Quiet(tr[i])
    ensures forall f :: InService(tr[i].core, f) ==>
      var c, fib := tr[i].core, tr[i].core.fibers[f];
      && Converged(c, f)
      && (fib.life.state == Active ==> forall n :: n in fib.fixed.inject ==> Current(c, fib, n).Some?)
      && (fib.life.state == Pending ==> exists n :: n in fib.fixed.inject && Current(c, fib, n).None?)
  {
    hide Run, FiberInv, AllConsistent, SysWf, EffectsInv, RuntimesOk, HoldersOk, RootOk;
    var s := tr[i];
    InvRun(tr, i);
    ConsistentRun(tr, i);
    forall f | InService(s.core, f)
      ensures var fib := s.core.fibers[f];
        && Converged(s.core, f)
        && (fib.life.state == Active ==> forall n :: n in fib.fixed.inject ==> Current(s.core, fib, n).Some?)
        && (fib.life.state == Pending ==> exists n :: n in fib.fixed.inject && Current(s.core, fib, n).None?)
    {
      assert FiberInv(s, f);
      QuietConverged(s, f);
      if s.core.fibers[f].life.state == Pending {
        var n :| Missing(s.core, s.core.fibers[f], n);
        assert n in s.core.fibers[f].fixed.inject && Current(s.core, s.core.fibers[f], n).None?;
      }
    }
  }

  lemma QuietConverged(s: Sys, f: nat)
    ensures Inv(s) && AllConsistent(s) && Quiet(s) && InService(s.core, f) ==> Converged(s.core, f)
  {
    hide SysWf;
    if Inv(s) && AllConsistent(s) && Quiet(s) && InService(s.core, f) {
      assert FiberInv(s, f);
      assert !HasOwner(s.pool, f);
      assert Consistent(s, f);
      assert IdleKnows(s.core.fibers[f], RefreshPending(s.pool, f), DisposePending(s.pool, f));
      assert !s.core.fibers[f].drive.dirty;
      assert AtRest(s.core.fibers[f]);
    }
  }

  /** The fiber's scope has the service: an available registration of that name, by an active provider, under the
      label the fiber's context gives the name. */
  predicate Offers(c: Core, fib: Fiber, n: Name, e: nat) {
    var at := if n in fib.fixed.scope then fib.fixed.scope[n] else n;
    && at in c.bindings && c.bindings[at] == e && e in c.store && c.store[e].name == n && c.store[e].available
    && c.store[e].provider in c.fibers && c.fibers[c.store[e].provider].life.state == Active
  }

  /** With nothing in flight, a fiber in service records a generation, standing or failed, exactly if its scope offers
      every service it injects, and the epoch names who registered each of them and which registration; it is Active
      unless its load failed. */
  lemma ServedIff(tr: seq<Sys>, i: nat, f: nat)
    requires Run(tr) && AlignedRun(tr) && i < |tr| && Quiet(tr[i]) && InService(tr[i].core, f)
    ensures var c, fib := tr[i].core, tr[i].core.fibers[f];
      && (fib.life.epoch.Gen? <==> forall n :: n in fib.fixed.inject ==> exists e :: Offers(c, fib, n, e))
      && (fib.life.epoch.Gen? ==> fib.life.state in {Active, Failed})
      && (forall n, e :: fib.life.epoch.Gen? && n in fib.fixed.inject && Offers(c, fib, n, e) ==>
            n in fib.life.epoch.keys && fib.life.epoch.keys[n] == Key(c.store[e].provider, e))
  {
    hide Run, AlignedRun, Inv, CoreWf;
    var c, fib := tr[i].core, tr[i].core.fibers[f];
    QuiescentConsistency(tr, i);
    forall n | Current(c, fib, n).Some? ensures Offers(c, fib, n, Current(c, fib, n).value) {}
    forall n, e: nat | Offers(c, fib, n, e) ensures Current(c, fib, n) == Some(e) {}
  }

  // ----- the snapshot cache -----

  lemma RootSnapshotLive(s: Sys, n: Name)
    requires SysWf(s) && RootOk(s) && SnapOk(s, 0) && Quiet(s)
    requires s.core.fibers[0].snapshot.Some? && n in s.core.fibers[0].snapshot.value
    ensures SnapshotLive(s.core, 0, n)
  {
    hide RootOk;
    var c, root := s.core, s.core.fibers[0];
    RootAtRest(s);
    assert FiberWf(c, 0, root) && n !in root.fixed.inject;
    assert EntryOk(c, s.pool, 0, root, n, root.snapshot.value[n]);
    hide SysWf;
  }

  lemma PluginSnapshotLive(c: Core, f: nat, n: Name)
    requires CoreWf(c) && Converged(c, f) && c.fibers[f].life.state == Active && c.fibers[f].snapshot.Some?
    requires n in c.fibers[f].snapshot.value
    requires EntryOk(c, map[], f, c.fibers[f], n, c.fibers[f].snapshot.value[n])
    ensures SnapshotLive(c, f, n)
  {
    var fib, e := c.fibers[f], c.fibers[f].snapshot.value[n];
    if !OwnHeld(c, map[], f, e) {
      var e' := Current(c, fib, n).value;
      assert KeyOf(c, e') == KeyOf(c, e);
      assert SlotWf(c, LabelOf(fib, n), e);
    }
  }

  lemma QuietSnapshotLive(s: Sys, f: nat, n: Name)
    requires Inv(s) && AllConsistent(s) && Quiet(s)
    requires f in s.core.fibers && s.core.fibers[f].snapshot.Some? && n in s.core.fibers[f].snapshot.value
    ensures SnapshotLive(s.core, f, n)
  {
    hide AllConsistent, EffectsInv, FrameWf;
    assert FiberInv(s, f);
    if f == 0 {
      hide SysWf, RootOk, SnapOk;
      RootSnapshotLive(s, n);
    } else {
      var fib := s.core.fibers[f];
      assert !HasOwner(s.pool, f) && AtRest(fib);
      assert IdleKnows(fib, RefreshPending(s.pool, f), DisposePending(s.pool, f));
      assert EntryOk(s.core, s.pool, f, fib, n, fib.snapshot.value[n]);
      hide SysWf, SingleOwner, RuntimesOk, HoldersOk, RootOk, FiberInv, EntryOk, Converged;
      assert InService(s.core, f);
      QuietConverged(s, f);
      PluginSnapshotLive(s.core, f, n);
    }
  }

  /** At quiescence a service read through the snapshots of the ancestor chain is exactly what the live
      registry gives for the caller's scope, whatever context of whatever fiber reads it. */
  lemma SnapshotsAgree(tr: seq<Sys>, i: nat, f: nat, name: Name, at: Label)
    requires Run(tr) && AlignedRun(tr) && i < |tr| && Quiet(tr[i])
    ensures ResolveService(tr[i].core, f, name, at) == Lookup(tr[i].core, at, name)
  {
    hide Run, AlignedRun, AllConsistent, ResolveService, Lookup, RuntimesOk, HoldersOk, SingleOwner, RootOk;
    hide FiberInv, CoreWf, EffectsInv, FrameWf;
    var s := tr[i];
    InvRun(tr, i);
    ConsistentRun(tr, i);
    forall g, n | g in s.core.fibers && s.core.fibers[g].snapshot.Some? && n in s.core.fibers[g].snapshot.value
      ensures SnapshotLive(s.core, g, n)
    {
      QuietSnapshotLive(s, g, n);
    }
    ResolvesLive(s.core, f, name, at);
  }

  /** In every state of every run it never gives a binding of another name or scope. */
  lemma ResolveKeepsScope(tr: seq<Sys>, i: nat, f: nat, name: Name, at: Label)
    requires Run(tr) && i < |tr| && ResolveService(tr[i].core, f, name, at).Some?
    ensures var e, c := ResolveService(tr[i].core, f, name, at).value, tr[i].core;
      e in c.store && c.store[e].name == name && c.store[e].at == at && c.store[e].available
  {
    hide Run, CoreWf, ResolveService, FiberInv, EffectsInv;
    InvRun(tr, i);
    ResolvesNoOther(tr[i].core, f, name, at);
  }
}
