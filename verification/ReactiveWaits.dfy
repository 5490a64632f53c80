/** What waits for what, over the runs of the machine: a teardown for disposers it did not start, an entry for its
    children, a commit for a last look at every provider, a call of Restart for the reload. And a failed load keeps
    its error. */
module ReactiveWaits {
  import opened Options
  import opened Reactive
  import opened ReactiveWf
  import opened ReactiveDriver
  import opened ReactiveQuiescence
  import opened ReactiveLifecycle
  import opened ReactiveRequests
  import opened ReactiveEntries
  import opened ReactiveSnapshots
  import opened ReactiveEffects
  import opened ReactiveRuntimes
  import opened ReactiveRoot
  import opened ReactiveTheorems

  // ----- the entries of a cleared list -----

  /** The driver `t` of `f` clears its list, for whoever called `unload`. */
  ghost predicate StartsWalk(s: Sys, t: nat, ch: Choice, s': Sys, f: nat, caller: UCaller) {
    Steps(s, t, ch, s') && s.pool[t] == Driver(f, Unload(UClear, caller))
  }

  function Listed(c: Core, f: nat): set<nat> {
    if f in c.fibers then c.fibers[f].list else {}
  }

  /** The driver walks over a cleared list. */
  predicate Walks(s: Sys, t: nat, f: nat, caller: UCaller) {
    t in s.pool && s.pool[t].Driver? && s.pool[t].f == f && s.pool[t].pc.Unload? && s.pool[t].pc.caller == caller
    && s.pool[t].pc.u.UDrain?
  }

  /** What it is not done with. */
  function TodoOf(s: Sys, t: nat): set<nat> {
    if t in s.pool && s.pool[t].Driver? && s.pool[t].pc.Unload? && s.pool[t].pc.u.UDrain? then s.pool[t].pc.u.todo
    else {}
  }

  /** From step `i` on the driver walks, and at `j` it is through. */
  predicate WalksThrough(tr: seq<Sys>, i: nat, j: nat, t: nat, f: nat, caller: UCaller) {
    && i < j < |tr| && t in tr[j].pool && tr[j].pool[t] == Driver(f, Unload(UReset, caller))
    && forall k :: i < k < j ==> Walks(tr[k], t, f, caller)
  }

  /** The entry is finished, or its body has not returned and will see the request. */
  predicate HandledIn(c: Core, e: nat) {
    e in c.entries && (c.entries[e] == Done || c.entries[e] == Running(true))
  }

  lemma ClearsAll(s: Sys, t: nat, ch: Choice, s': Sys, f: nat, caller: UCaller)
    ensures StartsWalk(s, t, ch, s', f, caller) ==> TodoOf(s', t) == Listed(s.core, f)
  {
    hide CoreWf, PcWf;
  }

  lemma WalkStep(s: Sys, t: nat, ch: Choice, s': Sys, u: nat, f: nat, caller: UCaller)
    ensures SysWf(s) && Steps(s, t, ch, s') && Walks(s, u, f, caller) ==>
      forall e :: e in TodoOf(s, u) && e !in TodoOf(s', u) ==> HandledIn(s'.core, e)
  {
    hide CoreWf, PcWf, DriverFiber, DriverNext, FrameWf;
    if u != t { hide Exec; }
  }

  lemma WalkCall(s: Sys, s': Sys, t: nat)
    ensures SysWf(s) && (exists fr :: Calls(s, fr, s')) ==> TodoOf(s', t) == TodoOf(s, t)
  {
    hide CoreWf, FrameWf;
  }

  lemma {:induction false} WalkHandles(tr: seq<Sys>, i: nat, j: nat, t: nat, f: nat, caller: UCaller, e: nat)
    requires Run(tr) && i < j < |tr| && e in TodoOf(tr[i + 1], t) && e !in TodoOf(tr[j], t)
    requires forall k :: i < k < j ==> Walks(tr[k], t, f, caller)
    ensures exists k :: i < k <= j && HandledIn(tr[k].core, e)
  {
    hide Inv, Steps, Init, Walks, HandledIn, CoreWf, FrameWf;
    var s, s' := tr[j - 1], tr[j];
    if e in TodoOf(s, t) {
      InvRun(tr, j - 1);
      InvSysWf(s);
      assert Move(tr, j - 1);
      WalkCall(s, s', t);
      var u, ch :| Steps(s, u, ch, s');
      hide TodoOf;
      WalkStep(s, u, ch, s', t, f, caller);
      assert HandledIn(s'.core, e);
    } else {
      WalkHandles(tr, i, j - 1, t, f, caller, e);
    }
  }

  /** A teardown waits: before a driver goes past the walk over the list it cleared, every entry of that list has
      been finished, whoever ran its disposer, or left to its own body with the request on it. */
  lemma TeardownWaits(tr: seq<Sys>, i: nat, j: nat, t: nat, ch: Choice, f: nat, caller: UCaller)
    requires Run(tr) && i < j < |tr| && StartsWalk(tr[i], t, ch, tr[i + 1], f, caller)
      && WalksThrough(tr, i, j, t, f, caller)
    ensures forall e :: e in Listed(tr[i].core, f) ==> exists k :: i < k <= j && HandledIn(tr[k].core, e)
  {
    hide Run, StartsWalk, HandledIn, Walks;
    ClearsAll(tr[i], t, ch, tr[i + 1], f, caller);
    assert TodoOf(tr[j], t) == {};
    hide TodoOf;
    forall e | e in Listed(tr[i].core, f) ensures exists k :: i < k <= j && HandledIn(tr[k].core, e) {
      WalkHandles(tr, i, j, t, f, caller, e);
    }
  }

  // ----- an entry and its children -----

  /** Every effect made through the scope of `e` is finished, or left to its own body with the request on it. */
  ghost predicate ChildrenHandled(c: Core, e: nat) {
    forall k :: k in c.entries && k in c.store && c.store[k].owner == Some(e) ==> HandledIn(c, k)
  }

  /** The step from `c` to `c'` finishes the entry. */
  predicate Finishes(c: Core, c': Core, e: nat) {
    e in c.entries && c.entries[e] != Done && e in c'.entries && c'.entries[e] == Done
  }

  lemma EndsAfterChildren(c: Core, fr: Frame, ch: Choice, e: nat)
    ensures Executes(c, fr, ch) && HolderKnows(c, fr) && Finishes(c, Exec(c, fr, ch).core, e) ==> ChildrenHandled(c, e)
  {
    hide CoreWf, FrameWf, Exec, HolderKnows, KeepsHold;
    if Executes(c, fr, ch) && HolderKnows(c, fr) && Finishes(c, Exec(c, fr, ch).core, e) {
      Does(c, fr, ch);
      EndsUnwound(c, fr, ch, e);
    }
  }

  lemma EndsUnwound(c: Core, fr: Frame, ch: Choice, e: nat)
    ensures Fits(c, fr) && DeedOf(c, fr, ch).Ends? && DeedOf(c, fr, ch).e == e ==> ChildrenHandled(c, e)
  {
    hide CoreWf, PcWf;
    if Fits(c, fr) && DeedOf(c, fr, ch).Ends? && DeedOf(c, fr, ch).e == e {
      forall k | k in c.entries && k in c.store && c.store[k].owner == Some(e) ensures HandledIn(c, k) {
        BindingFacts(c, k);
        assert !fr.Provide?;
        assert k !in Unhandled(c, e);
      }
    }
  }

  /** An entry is finished only after every effect made through its scope. */
  lemma ChildrenFirst(tr: seq<Sys>, i: nat, e: nat)
    requires Run(tr) && i + 1 < |tr| && Finishes(tr[i].core, tr[i + 1].core, e)
    ensures ChildrenHandled(tr[i].core, e)
  {
    hide Init, FiberInv, SysWf, EffectsInv, RuntimesOk, RootOk, SingleOwner, ChildrenHandled, Exec;
    var s, s' := tr[i], tr[i + 1];
    InvRun(tr, i);
    assert Move(tr, i);
    if t, ch :| Steps(s, t, ch, s') { EndsAfterChildren(s.core, s.pool[t], ch, e); }
  }

  // ----- the last look before a commit -----

  /** The binding's provider is active and its availability predicate passes. */
  predicate Serves(c: Core, e: nat) {
    && e in c.store && c.store[e].available
    && c.store[e].provider in c.fibers && c.fibers[c.store[e].provider].life.state == Active
  }

  predicate ServesFor(c: Core, got: map<Name, nat>, n: Name) {
    n in got && Serves(c, got[n])
  }

  /** The driver `t` of `f` is between the look at the providers and the commit. */
  predicate Looks(s: Sys, t: nat, f: nat, got: map<Name, nat>) {
    t in s.pool && s.pool[t].Driver? && s.pool[t].f == f
    && ((s.pool[t].pc.LoadCheck? && s.pool[t].pc.got == got) || s.pool[t].pc == LoadCommit(got))
  }

  /** The names it has looked at. */
  function LookedAt(s: Sys, t: nat): set<Name> {
    if t in s.pool && s.pool[t].Driver? then Seen(s.pool[t].pc) else {}
  }

  function Seen(pc: Pc): set<Name> {
    match pc
    case LoadCheck(check, got) => got.Keys - check
    case LoadCommit(got) => got.Keys
    case _ => {}
  }

  /** It looked at the binding at step `k`, and has gone on with the same load since. */
  predicate SeenAt(tr: seq<Sys>, k: int, j: int, t: nat, f: nat, got: map<Name, nat>, n: Name) {
    && 0 <= k <= j < |tr| && ServesFor(tr[k].core, got, n)
    && forall m :: k <= m <= j ==> Looks(tr[m], t, f, got)
  }

  /** The look at a provider goes on only if it serves. */
  lemma LookPc(c: Core, fib: Fiber, pc: Pc, ch: Choice, next: Pc, n: Name)
    ensures DriverNext(c, fib, pc, ch) == Some(next) && n in Seen(next) ==>
      && (next.LoadCheck? || next.LoadCommit?) && (pc.LoadCheck? && pc.got == next.got)
      && (n in Seen(pc) || ServesFor(c, next.got, n))
  {
    hide KeysOf;
  }

  lemma LookStep(s: Sys, t: nat, ch: Choice, s': Sys, u: nat, f: nat, got: map<Name, nat>, n: Name)
    ensures SysWf(s) && Steps(s, t, ch, s') && Looks(s', u, f, got) && n in LookedAt(s', u) ==>
      Looks(s, u, f, got) && (n in LookedAt(s, u) || ServesFor(s.core, got, n))
  {
    hide CoreWf, FrameWf, Exec, PcWf, ServesFor, DriverNext;
    if SysWf(s) && Steps(s, t, ch, s') && Looks(s', u, f, got) && n in LookedAt(s', u) {
      if u in s.pool && s.pool[u] == s'.pool[u] {
      } else {
        var fr := s.pool[t];
        CallKinds(s.core, fr, ch);
        ContKinds(s.core, fr, ch);
        if fr.Driver? {
          OwnNext(s.core, f, fr.pc, ch);
          if !fr.pc.Unload? { LookPc(s.core, s.core.fibers[f], fr.pc, ch, s'.pool[u].pc, n); }
        }
      }
    }
  }

  lemma LookCall(s: Sys, s': Sys, u: nat, f: nat, got: map<Name, nat>)
    ensures (exists fr :: Calls(s, fr, s')) && Looks(s', u, f, got) ==>
      Looks(s, u, f, got) && LookedAt(s', u) == LookedAt(s, u)
  {}

  /** A generation is committed only if, since this load began, every binding it commits to was seen registered by
      an active provider and available. */
  lemma {:induction false} LooksBeforeCommit(tr: seq<Sys>, j: nat, t: nat, f: nat, got: map<Name, nat>, n: Name)
    requires Run(tr) && j < |tr| && Looks(tr[j], t, f, got) && n in LookedAt(tr[j], t)
    ensures exists k :: 0 <= k < j && SeenAt(tr, k, j, t, f, got, n)
  {
    hide Inv, Init, Steps, Looks, LookedAt, ServesFor;
    if j == 0 {
      NobodyLooks(tr[0], t, f, got);
    } else {
      var s, s' := tr[j - 1], tr[j];
      InvRun(tr, j - 1);
      InvSysWf(s);
      assert Move(tr, j - 1);
      if u, ch :| Steps(s, u, ch, s') { LookStep(s, u, ch, s', t, f, got, n); } else { LookCall(s, s', t, f, got); }
      if n in LookedAt(tr[j - 1], t) {
        LooksBeforeCommit(tr, j - 1, t, f, got, n);
        var k :| 0 <= k < j - 1 && SeenAt(tr, k, j - 1, t, f, got, n);
        assert SeenAt(tr, k, j, t, f, got, n);
      } else {
        assert SeenAt(tr, j - 1, j, t, f, got, n);
      }
    }
  }

  lemma NobodyLooks(s: Sys, t: nat, f: nat, got: map<Name, nat>)
    ensures Init(s) ==> !Looks(s, t, f, got)
  {}

  // ----- a call of Restart -----

  /** `Restart` or `Update` marks the fiber, which nobody has disposed of. */
  ghost predicate Restarts(s: Sys, t: nat, ch: Choice, s': Sys, f: nat) {
    Steps(s, t, ch, s') && s.pool[t].Restarting? && s.pool[t].rs == RsMark && s.pool[t].f == f && f != 0
  }

  predicate Forced(c: Core, f: nat) {
    f in c.fibers && c.fibers[f].drive.forceReload
  }

  predicate Undisposed(c: Core, f: nat) {
    f in c.fibers ==> !c.fibers[f].disposed
  }

  predicate LosesMark(c: Core, c': Core, f: nat) {
    Forced(c, f) && !Forced(c', f) && Undisposed(c', f)
  }

  lemma RestartForces(s: Sys, t: nat, ch: Choice, s': Sys, f: nat)
    ensures Restarts(s, t, ch, s', f) ==> f != 0 && Forced(s'.core, f)
  {
    hide CoreWf, FrameWf;
  }

  /** Only the driver takes the mark, at the top of a pass. */
  lemma MarkTaken(s: Sys, t: nat, ch: Choice, s': Sys, f: nat)
    ensures SysWf(s) && Steps(s, t, ch, s') && f != 0 && LosesMark(s.core, s'.core, f) ==> TakesForce(s, t, ch, s', f)
  {
    hide CoreWf, Exec, FrameWf, DriverLife, DriverErr, UnloadLife;
    if SysWf(s) && Steps(s, t, ch, s') && f != 0 && LosesMark(s.core, s'.core, f) {
      var fr := s.pool[t];
      assert Fits(s.core, fr);
      if Owns(fr, f) { OwnStep(s.core, f, fr.pc, ch); }
      else {
        RootOnly(s.core, fr, f);
        ForeignStep(s.core, fr, ch, f);
      }
    }
  }

  lemma StillBefore(tr: seq<Sys>, i: nat, f: nat)
    requires Run(tr) && i + 1 < |tr| && f != 0 && Undisposed(tr[i + 1].core, f)
    ensures Undisposed(tr[i].core, f)
  {
    hide Run;
    DisposalTerminal(tr, i);
  }

  lemma NotForced(tr: seq<Sys>, j: nat, f: nat)
    requires Run(tr) && j < |tr| && f != 0 && Quiet(tr[j]) && Undisposed(tr[j].core, f)
    ensures !Forced(tr[j].core, f)
  {
    hide Run;
    if Forced(tr[j].core, f) {
      SingleDriver(tr, j, f);
      NoLostRequest(tr, j);
    }
  }

  lemma RootOnly(c: Core, fr: Frame, f: nat)
    ensures FrameWf(c, fr) && f != 0 && Drives(fr, f) ==> Owns(fr, f)
  {}

  /** Once set, the mark stays until it is taken. */
  lemma {:induction false} MarkRun(tr: seq<Sys>, i: nat, j: nat, f: nat) returns (m: nat, t: nat, ch: Choice)
    requires Run(tr) && i < j < |tr| && f != 0 && Forced(tr[i].core, f) && !Forced(tr[j].core, f)
    requires Undisposed(tr[j].core, f)
    ensures i <= m < j && TakesForce(tr[m], t, ch, tr[m + 1], f)
  {
    hide Inv, Init, Steps, TakesForce, Forced, Undisposed;
    InvRun(tr, j - 1);
    assert Move(tr, j - 1);
    StillBefore(tr, j - 1, f);
    var s, s' := tr[j - 1], tr[j];
    if Forced(s.core, f) {
      InvSysWf(s);
      assert exists u, c :: Steps(s, u, c, s') by {
        if fr :| Calls(s, fr, s') { CallCore(s, fr, s'); }
      }
      t, ch :| Steps(s, t, ch, s');
      MarkTaken(s, t, ch, s', f);
      m := j - 1;
    } else {
      m, t, ch := MarkRun(tr, i, j - 1, f);
    }
  }

  /** A call of Restart is not lost: before everything is at rest again, the driver has taken the mark and ended the
      generation that stood, unless the fiber was disposed of. */
  lemma RestartReloads(tr: seq<Sys>, i: nat, j: nat, t: nat, ch: Choice, f: nat)
    requires Run(tr) && i < j < |tr| && Restarts(tr[i], t, ch, tr[i + 1], f) && Quiet(tr[j])
    requires Undisposed(tr[j].core, f)
    ensures exists k, u :: i < k < j && Reloaded(tr[k], u, f)
  {
    hide Run, Restarts, TakesForce, Forced, Inv;
    RestartForces(tr[i], t, ch, tr[i + 1], f);
    NotForced(tr, j, f);
    var m, u, c := MarkRun(tr, i + 1, j, f);
    var k := ReloadRun(tr, m, j, u, c, f);
    assert Reloaded(tr[k], u, f);
  }

  // ----- a failed load keeps its error -----

  /** A failed generation without its error is about to be reloaded. */
  predicate Reported(fib: Fiber) {
    !fib.disposed && fib.life.state == Failed && fib.life.epoch.Gen? ==> fib.err || fib.drive.forceReload
  }

  /** What the driver knows of it: a reload that has taken the mark forgets the epoch before it ends. */
  predicate PcReports(fib: Fiber, pc: Pc) {
    || Reported(fib) || pc == ReloadMid || (pc.Unload? && pc.caller == ByReload)
  }

  predicate FailReports(fib: Fiber, pc: Pc) {
    pc == FailState ==> fib.err || fib.drive.forceReload
  }

  ghost predicate ErrOk(s: Sys, f: nat) {
    f in s.core.fibers && f != 0 ==>
      && (!s.core.fibers[f].drive.busy ==> Reported(s.core.fibers[f]))
      && (forall t :: t in s.pool && Owns(s.pool[t], f) ==>
            PcReports(s.core.fibers[f], s.pool[t].pc) && FailReports(s.core.fibers[f], s.pool[t].pc))
  }

  /** A load is under way there. */
  predicate Loads(pc: Pc) {
    pc.LoadCommit? || pc.Config? || pc.BodyDone?
  }

  /** A section that ends a reload or a failed load. */
  predicate Ends(pc: Pc) {
    pc.ReloadMid? || pc.FailMid? || pc.FailState? || pc.SyncTop? || pc.PassEnd?
  }

  /** What is known after a section that goes on to `next`. */
  predicate ReportsOn(fib: Fiber, next: Option<Pc>) {
    if next.Some? then PcReports(fib, next.value) && FailReports(fib, next.value) else Reported(fib)
  }

  lemma ReportsEnd(c: Core, fib: Fiber, pc: Pc, ch: Choice)
    ensures Ends(pc) && PcReports(fib, pc) && FailReports(fib, pc) ==>
      ReportsOn(DriverFiber(c, fib, pc, ch), DriverNext(c, fib, pc, ch))
  {}

  /** Any other section neither forgets an error nor fails a fiber, and goes on to no end. */
  lemma ReportsKept(c: Core, fib: Fiber, pc: Pc, ch: Choice)
    ensures !Ends(pc) && !pc.Unload? && Reported(fib) && (Loads(pc) ==> fib.life.state == Loading) ==>
      Reported(DriverFiber(c, fib, pc, ch))
  {
    hide KeysOf, Live, DriverDrive;
    DriveKept(fib, pc);
  }

  lemma DriveKept(fib: Fiber, pc: Pc)
    ensures !pc.SyncTop? ==> DriverDrive(fib, pc).forceReload == fib.drive.forceReload
  {}

  lemma NoFailState(c: Core, fib: Fiber, pc: Pc, ch: Choice)
    ensures !Ends(pc) && !pc.Unload? ==>
      DriverNext(c, fib, pc, ch).Some? && DriverNext(c, fib, pc, ch).value != FailState
  {
    hide KeysOf, Live, Registered;
  }

  lemma ReportsNext(c: Core, fib: Fiber, pc: Pc, ch: Choice)
    ensures !pc.Unload? && PcReports(fib, pc) && FailReports(fib, pc) && (Loads(pc) ==> fib.life.state == Loading) ==>
      ReportsOn(DriverFiber(c, fib, pc, ch), DriverNext(c, fib, pc, ch))
  {
    hide DriverFiber, DriverNext, Reported;
    ReportsEnd(c, fib, pc, ch);
    ReportsKept(c, fib, pc, ch);
    NoFailState(c, fib, pc, ch);
  }

  lemma ReportsUnload(fib: Fiber, pc: Pc, cont: Option<Frame>)
    ensures pc.Unload? && PcReports(fib, pc) && UnloadGoes(fib, pc, cont) ==>
      && cont.Some? && cont.value.Driver?
      && PcReports(UnloadFiber(fib, pc.u), cont.value.pc) && FailReports(UnloadFiber(fib, pc.u), cont.value.pc)
      && (pc.u.UDrain? ==> PcReports(fib, cont.value.pc) && FailReports(fib, cont.value.pc))
  {}

  lemma LoadsKnows(fib: Fiber, pc: Pc)
    ensures PcKnows(fib, pc) && Loads(pc) ==> fib.life.state == Loading
  {}

  lemma ReportsOwn(s: Sys, t: nat, ch: Choice, s': Sys, f: nat)
    requires SysWf(s) && SingleOwner(s) && SingleOwner(s') && LifeOk(s, f) && Steps(s, t, ch, s')
    requires f in s.core.fibers && f != 0 && Owns(s.pool[t], f) && ErrOk(s, f)
    ensures ErrOk(s', f)
  {
    hide CoreWf, FrameWf, Exec, PcKnows, AtRest, PcWf, DriverFiber, UnloadFiber, DriverNext, UnloadGoes;
    hide PcReports, FailReports, Reported;
    var c, pc := s.core, s.pool[t].pc;
    DriverKnown(c, f, pc) by { assert FrameWf(c, s.pool[t]); }
    OwnStep(c, f, pc, ch);
    OwnNext(c, f, pc, ch);
    CallKinds(c, s.pool[t], ch);
    ContKinds(c, s.pool[t], ch);
    var fib := c.fibers[f];
    if pc.Unload? { ReportsUnload(fib, pc, Exec(c, s.pool[t], ch).cont); }
    else {
      LoadsKnows(fib, pc);
      ReportsNext(c, fib, pc, ch);
    }
  }

  lemma ForeignReports(a: Fiber, b: Fiber, pc: Pc)
    ensures Foreign(a, b) ==>
      && (Reported(a) ==> Reported(b)) && (PcReports(a, pc) ==> PcReports(b, pc))
      && (FailReports(a, pc) ==> FailReports(b, pc))
  {}

  lemma PassReports(fib: Fiber)
    ensures Reported(fib) ==> PcReports(fib, PassStart) && FailReports(fib, PassStart)
  {}

  lemma ReportsOther(s: Sys, t: nat, ch: Choice, s': Sys, f: nat)
    requires SysWf(s) && SingleOwner(s) && SingleOwner(s') && Steps(s, t, ch, s') && f in s.core.fibers && f != 0
    requires !Owns(s.pool[t], f) && ErrOk(s, f)
    ensures ErrOk(s', f)
  {
    hide CoreWf, Exec, PcWf, Foreign, Reported, PcReports, FailReports;
    var c, fr := s.core, s.pool[t];
    assert FrameWf(c, fr);
    ForeignStep(c, fr, ch, f);
    CallKinds(c, fr, ch);
    ContKinds(c, fr, ch);
    var was, fib := c.fibers[f], s'.core.fibers[f];
    ForeignReports(was, fib, PassStart);
    PassReports(fib);
    forall k | k in s'.pool && Owns(s'.pool[k], f)
      ensures PcReports(fib, s'.pool[k].pc) && FailReports(fib, s'.pool[k].pc)
    {
      if k in s.pool && s.pool[k] == s'.pool[k] { ForeignReports(was, fib, s.pool[k].pc); }
    }
    if !fib.drive.busy { ForeignBusy(was, fib); }
  }

  lemma ForeignBusy(a: Fiber, b: Fiber)
    ensures Foreign(a, b) && a.drive.busy ==> b.drive.busy
  {}

  lemma ReportsNew(s: Sys, t: nat, ch: Choice, s': Sys, f: nat)
    requires SysWf(s) && SingleOwner(s) && Steps(s, t, ch, s') && SingleOwner(s') && f !in s.core.fibers
    requires f in s'.core.fibers
    ensures ErrOk(s', f)
  {
    hide CoreWf, FrameWf, Exec;
    Newborn(s.core, s.pool[t], ch, f);
    NoOwners(s', f);
  }

  ghost predicate AllErrOk(s: Sys) {
    forall f :: f in s.core.fibers ==> ErrOk(s, f)
  }

  lemma RootReports(s: Sys, f: nat)
    ensures f == 0 ==> ErrOk(s, f)
  {}

  lemma InvOwner(s: Sys)
    ensures Inv(s) ==> SingleOwner(s)
  {
    hide SysWf, SingleOwner, RuntimesOk, HoldersOk, RootOk, EffectsInv, FiberInv;
  }

  lemma ReportsCall(s: Sys, fr: Frame, s': Sys)
    ensures AllErrOk(s) && Calls(s, fr, s') ==> AllErrOk(s')
  {
    hide Reported, PcReports, FailReports;
  }

  lemma ReportsInit(s: Sys)
    ensures Init(s) ==> AllErrOk(s)
  {}

  lemma {:induction false} ErrRun(tr: seq<Sys>, i: nat)
    requires Run(tr) && i < |tr|
    ensures AllErrOk(tr[i])
  {
    hide Inv, Init, Steps, ErrOk, Calls, SysWf, SingleOwner, LifeOk;
    if i == 0 {
      ReportsInit(tr[0]);
    } else {
      var s, s' := tr[i - 1], tr[i];
      InvRun(tr, i - 1);
      InvRun(tr, i);
      InvSysWf(s);
      InvOwner(s);
      InvOwner(s');
      ErrRun(tr, i - 1);
      assert Move(tr, i - 1);
      if t, ch :| Steps(s, t, ch, s') {
        StepActivation(s, t, ch, s');
        forall f | f in s'.core.fibers ensures ErrOk(s', f) {
          if f !in s.core.fibers { ReportsNew(s, t, ch, s', f); }
          else if f == 0 { RootReports(s', f); }
          else if Owns(s.pool[t], f) {
            InvLife(s, f);
            ReportsOwn(s, t, ch, s', f);
          } else { ReportsOther(s, t, ch, s', f); }
        }
      } else {
        var fr :| Calls(s, fr, s');
        ReportsCall(s, fr, s');
      }
    }
  }

  /** Between passes, a fiber whose last load failed still has the error, unless a forced reload is on its way. */
  lemma FailureReported(tr: seq<Sys>, i: nat)
    requires Run(tr) && i < |tr|
    ensures forall f :: f != 0 && f in tr[i].core.fibers ==>
      var fib := tr[i].core.fibers[f];
      !fib.drive.busy && !fib.disposed && fib.life.state == Failed && fib.life.epoch.Gen? ==>
        fib.err || (fib.drive.forceReload && RefreshPending(tr[i].pool, f))
  {
    hide Run;
    ErrRun(tr, i);
    NoLostRequest(tr, i);
  }
}
