/** Two premises of the reactive core's theorems are needed: for every name and every label other than its
    provider's own there is a run in which quiescent consistency fails, and every registration on an idle fiber
    can outlive its disposal. */
module ReactiveCounterexamples {
  import opened Options
  import opened Reactive
  import opened ReactiveWf
  import opened ReactiveQuiescence
  import opened ReactiveTheorems

  type Pool = map<nat, Frame>

  const NOBODY: Pool := map[]
  const ANY := Choice("", 0, 0, true)

  function Named(n: Name): Choice {
    Choice(n, 0, 0, true)
  }

  // ----- building a run step by step -----

  ghost predicate Ends(tr: seq<Sys>, c: Core, pool: Pool) {
    Run(tr) && tr[|tr| - 1].core == c && tr[|tr| - 1].pool == pool
  }

  /** Some run ends with the core `c` and the activations `pool`. */
  ghost predicate Reaches(c: Core, pool: Pool) {
    exists tr :: Ends(tr, c, pool)
  }

  lemma Extend(tr: seq<Sys>, s': Sys)
    ensures Run(tr) && Next(tr[|tr| - 1], s') ==> Reaches(s'.core, s'.pool)
  {
    hide Next, Init;
    if Run(tr) && Next(tr[|tr| - 1], s') {
      var tr' := tr + [s'];
      forall i | 0 <= i < |tr'| - 1 ensures Move(tr', i) {
        if i == |tr| - 1 { assert tr'[i + 1] == s'; } else { assert Move(tr, i) && tr'[i + 1] == tr[i + 1]; }
      }
      assert Ends(tr', s'.core, s'.pool);
    }
  }

  lemma Last(c: Core, pool: Pool) returns (tr: seq<Sys>)
    requires Reaches(c, pool)
    ensures Ends(tr, c, pool) && |tr| > 0 && SysWf(tr[|tr| - 1])
  {
    hide FiberInv, EffectsInv;
    tr :| Ends(tr, c, pool);
    InvRun(tr, |tr| - 1);
    hide Run, SysWf;
  }

  predicate Goes(c: Core, fr: Frame, ch: Choice, c': Core, cont: Option<Frame>, call: Option<Frame>) {
    Fits(c, fr) ==> Exec(c, fr, ch) == Ran(c', cont, call)
  }

  lemma ExecutesAs(c: Core, fr: Frame, ch: Choice, c': Core, cont: Option<Frame>, call: Option<Frame>)
    ensures Fits(c, fr) && Goes(c, fr, ch, c', cont, call) ==> Exec(c, fr, ch) == Ran(c', cont, call)
  {
    hide CoreWf, FrameWf, Exec;
  }

  lemma WfAt(s: Sys, t: nat)
    ensures SysWf(s) && t in s.pool ==>
      CoreWf(s.core) && FrameWf(s.core, s.pool[t]) && s.next != t && s.next !in s.pool
  {
    hide CoreWf, FrameWf;
  }

  /** The activation `t` takes a step. */
  lemma StepsOn(c: Core, pool: Pool, t: nat, ch: Choice, c': Core, cont: Option<Frame>,
      call: Option<Frame>) returns (s: Sys)
    requires Reaches(c, pool) && t in pool && Goes(c, pool[t], ch, c', cont, call)
    ensures s.core == c && s.pool == pool && s.next !in pool && Reaches(c', NewPool(s, t, cont, call))
  {
    hide CoreWf, FrameWf, SysWf, Exec, Reaches, Run, Goes, Next, Init;
    var tr := Last(c, pool);
    s := tr[|tr| - 1];
    WfAt(s, t);
    ExecutesAs(c, pool[t], ch, c', cont, call);
    var s' := After(s, t, Exec(c, pool[t], ch));
    assert Steps(s, t, ch, s');
    NextOf(s, t, ch, s');
    Extend(tr, s');
  }

  lemma NextOf(s: Sys, t: nat, ch: Choice, s': Sys)
    ensures Steps(s, t, ch, s') ==> Next(s, s')
  {
    hide Steps, Calls;
  }

  /** It goes on and starts no other. */
  lemma Go(c: Core, rest: Pool, t: nat, fr: Frame, ch: Choice, c': Core, cont: Frame)
    requires Reaches(c, rest[t := fr]) && Goes(c, fr, ch, c', Some(cont), None)
    ensures Reaches(c', rest[t := cont])
  {
    hide Reaches, Goes;
    var s := StepsOn(c, rest[t := fr], t, ch, c', Some(cont), None);
    assert NewPool(s, t, Some(cont), None) == rest[t := cont];
  }

  /** It returns. */
  lemma Finish(c: Core, rest: Pool, t: nat, fr: Frame, ch: Choice, c': Core)
    ensures Reaches(c, rest[t := fr]) && t !in rest && Goes(c, fr, ch, c', None, None) ==> Reaches(c', rest)
  {
    hide Reaches, Goes;
    if Reaches(c, rest[t := fr]) && t !in rest && Goes(c, fr, ch, c', None, None) {
      var s := StepsOn(c, rest[t := fr], t, ch, c', None, None);
      assert NewPool(s, t, None, None) == rest;
    }
  }

  /** It starts another activation. */
  lemma Fork(c: Core, t: nat, fr: Frame, ch: Choice, c': Core, cont: Frame, call: Frame) returns (u: nat)
    requires Reaches(c, NOBODY[t := fr]) && Goes(c, fr, ch, c', Some(cont), Some(call))
    ensures u != t && Reaches(c', NOBODY[u := call][t := cont])
  {
    hide Reaches, Goes;
    var s := StepsOn(c, NOBODY[t := fr], t, ch, c', Some(cont), Some(call));
    u := s.next;
    assert NewPool(s, t, Some(cont), Some(call)) == NOBODY[u := call][t := cont];
  }

  /** Somebody calls an entry point. */
  lemma Begin(c: Core, rest: Pool, fr: Frame) returns (t: nat)
    requires Reaches(c, rest) && EntryPoint(c, fr)
    ensures t !in rest && Reaches(c, rest[t := fr])
  {
    hide Steps;
    var tr := Last(c, rest);
    var s := tr[|tr| - 1];
    assert s.next !in s.pool;
    hide CoreWf, FrameWf, Reaches, Run, EntryPoint;
    t := s.next;
    assert Calls(s, fr, s.(pool := s.pool[t := fr], next := t + 1));
    Extend(tr, s.(pool := s.pool[t := fr], next := t + 1));
  }

  /** One section of a driver outside `unload`. */
  lemma DriverGo(c: Core, t: nat, f: nat, pc: Pc, ch: Choice, fib: Fiber, fib': Fiber, next: Pc)
    requires Reaches(With(c, f, fib), NOBODY[t := Driver(f, pc)])
    requires PcWf(With(c, f, fib), fib, pc) && Chooses(pc, ch) && !pc.Unload? && !pc.GiveBackRefresh?
    requires DriverFiber(With(c, f, fib), fib, pc, ch) == fib'
    requires DriverNext(With(c, f, fib), fib, pc, ch) == Some(next)
    requires (fib'.life.state == Active) == (fib.life.state == Active)
    ensures Reaches(With(c, f, fib'), NOBODY[t := Driver(f, next)])
  {
    hide PcWf, Chooses, DriverFiber, DriverNext, CoreWf, Reaches, Fits, ExecNotify, ExecLoad, ExecProvide;
    hide ExecEffect, ExecDisposer, ExecUnload, ExecDisposing;
    assert c.fibers[f := fib][f := fib'] == c.fibers[f := fib'];
    Go(With(c, f, fib), NOBODY, t, Driver(f, pc), ch, With(c, f, fib'), Driver(f, next));
  }

  /** The last section of a drive nobody asked to go on. */
  lemma DriverEnds(c: Core, rest: Pool, t: nat, f: nat, fib: Fiber, fib': Fiber)
    requires Reaches(With(c, f, fib), rest[t := Driver(f, PassEnd)]) && t !in rest
    requires !fib.drive.dirty && fib' == fib.(drive := fib.drive.(busy := false))
    ensures Reaches(With(c, f, fib'), rest)
  {
    hide Fits, ExecNotify, ExecLoad, ExecRootUnload;
    assert DriverFiber(With(c, f, fib), fib, PassEnd, ANY) == fib'
        && DriverNext(With(c, f, fib), fib, PassEnd, ANY) == None;
    hide DriverFiber, DriverNext, CoreWf, Reaches;
    assert c.fibers[f := fib][f := fib'] == c.fibers[f := fib'];
    Finish(With(c, f, fib), rest, t, Driver(f, PassEnd), ANY, With(c, f, fib'));
  }

  /** One section of `unload` that empties nothing. */
  lemma UnloadGo(c: Core, t: nat, f: nat, u: UPc, fib: Fiber, fib': Fiber, next: Pc)
    requires Reaches(With(c, f, fib), NOBODY[t := Driver(f, Unload(u, BySync))])
    requires !u.UDrain? && UnloadFiber(fib, u) == fib'
    requires (fib'.life.state == Active) == (fib.life.state == Active)
    requires next == (if UnloadNext(fib, u).Some? then Unload(UnloadNext(fib, u).value, BySync) else PassEnd)
    ensures Reaches(With(c, f, fib'), NOBODY[t := Driver(f, next)])
  {
    hide UnloadFiber, UnloadNext, CoreWf, Reaches, Fits, ExecNotify, ExecLoad, ExecProvide;
    assert c.fibers[f := fib][f := fib'] == c.fibers[f := fib'];
    Go(With(c, f, fib), NOBODY, t, Driver(f, Unload(u, BySync)), ANY, With(c, f, fib'), Driver(f, next));
  }

  const START := Core(map[0 := RootFiber()], map[], map[], map[], map[], map[], 0, 0, 0)

  lemma Started()
    ensures Reaches(START, NOBODY)
  {
    hide Move;
    assert Ends([Sys(START, map[], 0)], START, NOBODY);
  }

  // ----- loading a plugin -----

  /** The entry of the root's list that stands for its child `f`. */
  function ChildSlot(f: nat): Binding {
    Binding("", "", 0, true, None, Child(f))
  }

  function Claimed(c: Core, f: nat): Core {
    c.(runtimeSeq := f, runtimes := c.runtimes[f := f], rts := c.rts[f := Runtime(f, {}, 1)])
  }

  function Slotted(c: Core, f: nat, phase: Phase): Core
    requires 0 in c.fibers
  {
    var e := c.bindingSeq + 1;
    c.(counter := f, bindingSeq := e, store := c.store[e := ChildSlot(f)], entries := c.entries[e := phase],
       fibers := c.fibers[0 := Entered(c.fibers[0], e, None)])
  }

  /** What the first `load` of a new definition `f` leaves beside the fiber `f` itself. */
  function Loaded(c: Core, f: nat): Core
    requires 0 in c.fibers
  {
    Slotted(c, f, Ready).(runtimeSeq := f, runtimes := c.runtimes[f := f], rts := c.rts[f := Runtime(f, {f}, 0)])
  }

  function Young(f: nat, inject: set<Name>, scope: map<Name, Label>): Fiber {
    NewFiber(0, f, inject, scope).(published := true)
  }

  function Busy(fib: Fiber): Fiber {
    fib.(drive := Taken(fib.drive))
  }

  /** Nothing is known of definition or fiber `f` yet, and the root is up. */
  predicate Vacant(c: Core, f: nat) {
    && c.counter + 1 == f && c.runtimeSeq + 1 == f && f !in c.runtimes && f !in c.rts && f !in c.fibers && f != 0
    && 0 in c.fibers && c.fibers[0].life.state == Active && !c.fibers[0].disposed && c.fibers[0].published
  }

  function Loading(f: nat, inject: set<Name>, scope: map<Name, Label>, ld: LoadPc): Frame {
    Load(0, None, f, inject, scope, ld)
  }

  /** Loading a plugin under the root, up to the start of its driver. */
  lemma Loads(c: Core, f: nat, inject: set<Name>, scope: map<Name, Label>) returns (t: nat)
    requires Reaches(c, NOBODY) && Vacant(c, f)
    ensures Reaches(With(Loaded(c, f), f, Busy(Young(f, inject, scope))), NOBODY[t := Driver(f, PassStart)])
  {
    hide Reaches, Goes, Loaded, Young, Busy, Slotted, EntryPoint;
    var e := c.bindingSeq + 1;
    LoadCalled(c, f, inject, scope);
    t := Begin(c, NOBODY, Loading(f, inject, scope, LdGate));
    var c1 := Claimed(c, f);
    var c2 := With(c1.(counter := f), f, NewFiber(0, f, inject, scope));
    var c3 := With(Slotted(c1, f, Running(false)), f, NewFiber(0, f, inject, scope));
    var c4 := With(Loaded(c, f).(entries := c.entries[e := Running(false)]), f, Young(f, inject, scope));
    var c5 := With(Loaded(c, f), f, Young(f, inject, scope));
    LoadClaims(c, f, inject, scope);
    LoadEnters(c, f, inject, scope);
    LoadAttaches(c, f, inject, scope);
    LoadInstalls(c, f, inject, scope);
    LoadStarts(c, f, inject, scope, e);
    assert !Young(f, inject, scope).drive.busy by { YoungIdle(f, inject, scope); }
    RefreshTakes(Loaded(c, f), f, Young(f, inject, scope));
    Go(c, NOBODY, t, Loading(f, inject, scope, LdGate), ANY, c, Loading(f, inject, scope, LdClaim));
    Go(c, NOBODY, t, Loading(f, inject, scope, LdClaim), ANY, c1, Loading(f, inject, scope, LdNew(f)));
    Go(c1, NOBODY, t, Loading(f, inject, scope, LdNew(f)), ANY, c2, Loading(f, inject, scope, LdEnter(f, f)));
    Go(c2, NOBODY, t, Loading(f, inject, scope, LdEnter(f, f)), ANY, c3, Loading(f, inject, scope, LdAttach(f, f, e)));
    Go(c3, NOBODY, t, Loading(f, inject, scope, LdAttach(f, f, e)), ANY, c4,
        Loading(f, inject, scope, LdInstall(f, f, e)));
    Go(c4, NOBODY, t, Loading(f, inject, scope, LdInstall(f, f, e)), ANY, c5,
        Loading(f, inject, scope, LdStart(f, f, e)));
    Go(c5, NOBODY, t, Loading(f, inject, scope, LdStart(f, f, e)), ANY, c5, Refresh(f));
    Go(c5, NOBODY, t, Refresh(f), ANY, With(Loaded(c, f), f, Busy(Young(f, inject, scope))), Driver(f, PassStart));
  }

  lemma YoungIdle(f: nat, inject: set<Name>, scope: map<Name, Label>)
    ensures !Young(f, inject, scope).drive.busy
  {}

  lemma LoadCalled(c: Core, f: nat, inject: set<Name>, scope: map<Name, Label>)
    ensures Vacant(c, f) ==> EntryPoint(c, Loading(f, inject, scope, LdGate))
  {}

  lemma LoadClaims(c: Core, f: nat, inject: set<Name>, scope: map<Name, Label>)
    ensures Vacant(c, f) ==>
      var c1 := Claimed(c, f);
      && Goes(c, Loading(f, inject, scope, LdGate), ANY, c, Some(Loading(f, inject, scope, LdClaim)), None)
      && Goes(c, Loading(f, inject, scope, LdClaim), ANY, c1, Some(Loading(f, inject, scope, LdNew(f))), None)
      && Goes(c1, Loading(f, inject, scope, LdNew(f)), ANY, With(c1.(counter := f), f, NewFiber(0, f, inject, scope)),
              Some(Loading(f, inject, scope, LdEnter(f, f))), None)
  {
    hide CoreWf, FrameWf, ExecDriver, ExecRootUnload, ExecNotify, ExecProvide, ExecUnwind, ExecDisposer;
    hide PublishNext, ExecDisposing;
  }

  lemma LoadEnters(c: Core, f: nat, inject: set<Name>, scope: map<Name, Label>)
    ensures Vacant(c, f) ==>
      var c1, young := Claimed(c, f), NewFiber(0, f, inject, scope);
      Goes(With(c1.(counter := f), f, young), Loading(f, inject, scope, LdEnter(f, f)), ANY,
           With(Slotted(c1, f, Running(false)), f, young),
               Some(Loading(f, inject, scope, LdAttach(f, f, c.bindingSeq + 1))), None)
  {
    hide CoreWf, FrameWf, Entered, ExecDriver, ExecRootUnload, ExecNotify, ExecProvide, ExecUnwind, ExecDisposer;
    hide ExecDisposing;
    if Vacant(c, f) {
      var e, young := c.bindingSeq + 1, NewFiber(0, f, inject, scope);
      assert c.fibers[f := young][0 := Entered(c.fibers[0], e, None)] ==
          c.fibers[0 := Entered(c.fibers[0], e, None)][f := young];
    }
  }

  lemma LoadAttaches(c: Core, f: nat, inject: set<Name>, scope: map<Name, Label>)
    ensures Vacant(c, f) ==>
      var e := c.bindingSeq + 1;
      Goes(With(Slotted(Claimed(c, f), f, Running(false)), f, NewFiber(0, f, inject, scope)),
           Loading(f, inject, scope, LdAttach(f, f, e)), ANY,
           With(Loaded(c, f).(entries := c.entries[e := Running(false)]), f, Young(f, inject, scope)),
           Some(Loading(f, inject, scope, LdInstall(f, f, e))), None)
  {
    hide CoreWf, FrameWf, Entered, Exec, Goes;
    if Vacant(c, f) {
      var d := Slotted(Claimed(c, f), f, Running(false));
      AttachGoes(d, f, inject, scope, c.bindingSeq + 1);
      assert c.rts[f := Runtime(f, {}, 1)][f := Runtime(f, {f}, 0)] == c.rts[f := Runtime(f, {f}, 0)];
      assert d.(rts := d.rts[f := Runtime(f, {f}, 0)]) ==
          Loaded(c, f).(entries := c.entries[c.bindingSeq + 1 := Running(false)]);
    }
  }

  lemma AttachGoes(d: Core, f: nat, inject: set<Name>, scope: map<Name, Label>, e: nat)
    ensures f in d.rts && d.rts[f] == Runtime(f, {}, 1) ==>
      Goes(With(d, f, NewFiber(0, f, inject, scope)), Loading(f, inject, scope, LdAttach(f, f, e)), ANY,
                 With(d.(rts := d.rts[f := Runtime(f, {f}, 0)]), f, Young(f, inject, scope)),
                 Some(Loading(f, inject, scope, LdInstall(f, f, e))), None)
  {
    hide CoreWf, FrameWf, ExecDriver, ExecRootUnload, ExecNotify, ExecProvide, ExecUnwind, ExecDisposer;
    hide PublishNext, ExecDisposing;
    var none: set<nat> := {};
    assert none + {f} == {f};
    assert d.fibers[f := NewFiber(0, f, inject, scope)][f := Young(f, inject, scope)] ==
        d.fibers[f := Young(f, inject, scope)];
  }

  lemma LoadInstalls(c: Core, f: nat, inject: set<Name>, scope: map<Name, Label>)
    ensures Vacant(c, f) ==>
      var e, c5 := c.bindingSeq + 1, With(Loaded(c, f), f, Young(f, inject, scope));
      Goes(c5.(entries := c.entries[e := Running(false)]), Loading(f, inject, scope, LdInstall(f, f, e)), ANY, c5,
           Some(Loading(f, inject, scope, LdStart(f, f, e))), None)
  {
    hide CoreWf, FrameWf, Entered, ExecDriver, ExecRootUnload, ExecNotify, ExecProvide, ExecUnwind, ExecDisposer;
    hide ExecDisposing;
    var e := c.bindingSeq + 1;
    assert c.entries[e := Running(false)][e := Ready] == c.entries[e := Ready];
  }

  lemma LoadStarts(c: Core, f: nat, inject: set<Name>, scope: map<Name, Label>, e: nat)
    ensures 0 in c.fibers ==>
      var c5 := With(Loaded(c, f), f, Young(f, inject, scope));
      Goes(c5, Loading(f, inject, scope, LdStart(f, f, e)), ANY, c5, Some(Refresh(f)), None)
  {
    hide CoreWf, FrameWf, Entered, Loaded, ExecDriver, ExecRootUnload, ExecNotify, ExecProvide, ExecUnwind;
    hide ExecDisposer, ExecDisposing;
  }

  lemma RefreshTakes(c: Core, f: nat, fib: Fiber)
    ensures !fib.drive.busy ==>
      Goes(With(c, f, fib), Refresh(f), ANY, With(c, f, Busy(fib)), Some(Driver(f, PassStart)), None)
  {
    hide CoreWf, FrameWf, ExecDriver, ExecLoad, ExecRootUnload, ExecNotify, ExecProvide, ExecEffect, ExecDisposer;
    hide ExecDisposing;
    assert c.fibers[f := fib][f := Busy(fib)] == c.fibers[f := Busy(fib)];
  }

  // ----- the passes of an idle plugin -----

  /** Plugin 1, which needs `need` and finds nobody who provides it in its scope, idle after its first pass. */
  function Waiting(need: Name, scope: map<Name, Label>): Fiber {
    Young(1, {need}, scope).(drive := Drive(false, false, false, 1, 1, 1, 0))
  }

  lemma FirstPass(c: Core, t: nat, need: Name, scope: map<Name, Label>)
    requires Reaches(With(c, 1, Busy(Young(1, {need}, scope))), NOBODY[t := Driver(1, PassStart)])
    requires c.bindings == map[]
    ensures Reaches(With(c, 1, Waiting(need, scope)), NOBODY)
  {
    hide Reaches;
    var on := Waiting(need, scope).(drive := Drive(true, false, false, 1, 1, 1, 0));
    DriverGo(c, t, 1, PassStart, ANY, Busy(Young(1, {need}, scope)), on, SyncTop);
    DriverGo(c, t, 1, SyncTop, ANY, on, on, Resolve({need}, map[], false));
    DriverGo(c, t, 1, Resolve({need}, map[], false), Named(need), on, on, DecideMiss(need));
    DriverGo(c, t, 1, DecideMiss(need), ANY, on, on, PassEnd);
    DriverEnds(c, NOBODY, t, 1, on, Waiting(need, scope));
  }

  /** The pass of a disposed plugin without a generation goes straight to the final state. */
  lemma LastPass(c: Core, t: nat, fib: Fiber)
    requires Reaches(With(c, 1, fib), NOBODY[t := Driver(1, PassStart)])
    requires fib.disposed && !fib.fixed.root && fib.drive == Drive(true, true, false, 3, 1, 0, 0)
    requires fib.life == Life(Pending, Inactive, false, 0, false)
    ensures Reaches(With(c, 1,
      fib.(life := fib.life.(state := Disposed), drive := Drive(false, false, false, 3, 3, 1, 0))), NOBODY)
  {
    hide Reaches;
    var one := fib.(drive := Drive(true, false, false, 3, 3, 1, 0));
    DriverGo(c, t, 1, PassStart, ANY, fib, one, SyncTop);
    DriverGo(c, t, 1, SyncTop, ANY, one, one, Unload(UClaim, BySync));
    UnloadGo(c, t, 1, UClaim, one, one, Unload(UFinal, BySync));
    var two := one.(life := one.life.(state := Disposed));
    UnloadGo(c, t, 1, UFinal, one, two, PassEnd);
    DriverEnds(c, NOBODY, t, 1, two, two.(drive := Drive(false, false, false, 3, 3, 1, 0)));
  }

  // ----- a provision on a fiber that is not active -----

  function Providing(f: nat, name: Name, at: Label, pv: ProvidePc): Frame {
    Provide(f, name, at, None, true, pv)
  }

  function Allocated(c: Core, f: nat, name: Name, at: Label): Core {
    var e := c.bindingSeq + 1;
    c.(bindingSeq := e, store := c.store[e := Binding(name, at, f, true, None, Registration)])
  }

  function Entering(c: Core, f: nat, name: Name, at: Label): Core {
    Allocated(c, f, name, at).(entries := c.entries[c.bindingSeq + 1 := Running(false)])
  }

  function Registering(c: Core, f: nat, name: Name, at: Label): Core {
    Entering(c, f, name, at).(bindings := c.bindings[at := c.bindingSeq + 1])
  }

  /** The core beside the provider's fiber after a successful `provide`. */
  function Provided(c: Core, f: nat, name: Name, at: Label): Core {
    Registering(c, f, name, at).(entries := c.entries[c.bindingSeq + 1 := Ready])
  }

  /** The provider's fiber then. */
  function Offering(fib: Fiber, name: Name, e: nat): Fiber {
    Entered(fib, e, None).(snapshot := if fib.snapshot.Some? then Some(fib.snapshot.value[name := e]) else None)
  }

  predicate Offers(c: Core, fib: Fiber, at: Label) {
    at !in c.bindings && fib.published && !fib.disposed && fib.life.state != Unloading && fib.life.state != Active
  }

  lemma Provides(c: Core, rest: Pool, f: nat, name: Name, at: Label, fib: Fiber)
    ensures Reaches(With(c, f, fib), rest) && Offers(c, fib, at) && name != "" ==>
      Reaches(With(Provided(c, f, name, at), f, Offering(fib, name, c.bindingSeq + 1)), rest)
  {
    hide Exec, Fits, Reaches;
    if Reaches(With(c, f, fib), rest) && Offers(c, fib, at) && name != "" {
      var t := Begin(With(c, f, fib), rest, Providing(f, name, at, PvAlloc));
      ProvideEnters(c, f, name, at, fib);
      ProvideRegisters(c, f, name, at, fib);
      ProvideInstalls(c, f, name, at, fib);
      var e := c.bindingSeq + 1;
      var in0, on := Entered(fib, e, None), Offering(fib, name, e);
      var c1 := With(Allocated(c, f, name, at), f, fib);
      var c2 := With(Entering(c, f, name, at), f, in0);
      var c3 := With(Registering(c, f, name, at), f, in0);
      var c4 := With(Registering(c, f, name, at), f, on);
      hide Reaches, Goes, Allocated, Entering, Registering, Provided, Entered, Offering, Offers;
      Go(With(c, f, fib), rest, t, Providing(f, name, at, PvAlloc), ANY, c1, Providing(f, name, at, PvGate(e)));
      Go(c1, rest, t, Providing(f, name, at, PvGate(e)), ANY, c1, Providing(f, name, at, PvEnter(e)));
      Go(c1, rest, t, Providing(f, name, at, PvEnter(e)), ANY, c2, Providing(f, name, at, PvRegister(e)));
      Go(c2, rest, t, Providing(f, name, at, PvRegister(e)), ANY, c3, Providing(f, name, at, PvSnapshot(e)));
      Go(c3, rest, t, Providing(f, name, at, PvSnapshot(e)), ANY, c4, Providing(f, name, at, PvNotify(e)));
      Go(c4, rest, t, Providing(f, name, at, PvNotify(e)), ANY, c4, Providing(f, name, at, PvInstall(e)));
      Finish(c4, rest, t, Providing(f, name, at, PvInstall(e)), ANY, With(Provided(c, f, name, at), f, on));
    }
  }

  lemma ProvideEnters(c: Core, f: nat, name: Name, at: Label, fib: Fiber)
    ensures Offers(c, fib, at) && name != "" ==>
      var c1, e := With(Allocated(c, f, name, at), f, fib), c.bindingSeq + 1;
      && Goes(With(c, f, fib), Providing(f, name, at, PvAlloc), ANY, c1, Some(Providing(f, name, at, PvGate(e))), None)
      && Goes(c1, Providing(f, name, at, PvGate(e)), ANY, c1, Some(Providing(f, name, at, PvEnter(e))), None)
      && Goes(c1, Providing(f, name, at, PvEnter(e)), ANY, With(Entering(c, f, name, at), f, Entered(fib, e, None)),
              Some(Providing(f, name, at, PvRegister(e))), None)
  {
    hide CoreWf, FrameWf, Entered, ExecDriver, ExecLoad, ExecRootUnload, ExecNotify, ExecEffect, ExecDisposer;
    hide ExecDisposing;
    assert c.fibers[f := fib][f := Entered(fib, c.bindingSeq + 1, None)] ==
        c.fibers[f := Entered(fib, c.bindingSeq + 1, None)];
  }

  lemma ProvideRegisters(c: Core, f: nat, name: Name, at: Label, fib: Fiber)
    ensures Offers(c, fib, at) ==>
      var e, c2, c3 := c.bindingSeq + 1, Entering(c, f, name, at), Registering(c, f, name, at);
      var in0, on := Entered(fib, e, None), Offering(fib, name, e);
      && Goes(With(c2, f, in0), Providing(f, name, at, PvRegister(e)), ANY, With(c3, f, in0),
          Some(Providing(f, name, at, PvSnapshot(e))), None)
      && Goes(With(c3, f, in0), Providing(f, name, at, PvSnapshot(e)), ANY, With(c3, f, on),
          Some(Providing(f, name, at, PvNotify(e))), None)
  {
    hide CoreWf, FrameWf, ExecDriver, ExecLoad, ExecRootUnload, ExecNotify, ExecEffect;
    var e := c.bindingSeq + 1;
    assert c.fibers[f := Entered(fib, e, None)][f := Offering(fib, name, e)] == c.fibers[f := Offering(fib, name, e)];
  }

  lemma ProvideInstalls(c: Core, f: nat, name: Name, at: Label, fib: Fiber)
    ensures Offers(c, fib, at) ==>
      var e, c4 := c.bindingSeq + 1, With(Registering(c, f, name, at), f, Offering(fib, name, c.bindingSeq + 1));
      && Goes(c4, Providing(f, name, at, PvNotify(e)), ANY, c4, Some(Providing(f, name, at, PvInstall(e))), None)
      && Goes(c4, Providing(f, name, at, PvInstall(e)), ANY,
              With(Provided(c, f, name, at), f, Offering(fib, name, e)), None, None)
  {
    hide CoreWf, FrameWf, ExecDriver, ExecLoad, ExecRootUnload, ExecNotify, ExecEffect, ExecDisposer;
    hide ExecDisposing;
    var e := c.bindingSeq + 1;
    assert c.entries[e := Running(false)][e := Ready] == c.entries[e := Ready];
  }

  // ----- a registration on an idle fiber -----

  /** Disposal of the pending plugin 1. */
  lemma DisposesPending(c: Core, fib: Fiber) returns (c': Core)
    requires Reaches(With(c, 1, fib), NOBODY) && 1 in c.rts && !fib.disposed && fib.published
    requires fib.fixed == Young(1, fib.fixed.inject, fib.fixed.scope).fixed
    requires fib.life == Life(Pending, Inactive, false, 0, false)
    requires fib.drive == Drive(false, false, false, 1, 1, 1, 0)
    ensures Reaches(c', NOBODY) && c'.bindings == c.bindings && c'.store == c.store
    ensures 1 in c'.fibers
    ensures c'.fibers[1] == fib.(disposed := true, life := fib.life.(state := Disposed),
      drive := Drive(false, false, false, 3, 3, 1, 0))
  {
    var marked := fib.(disposed := true, drive := Drive(false, true, false, 2, 1, 1, 1));
    var taken := marked.(drive := Drive(true, true, false, 3, 1, 0, 0));
    var d := RemoveFiber(c, 1, 1);
    DisposeGoes(c, fib, marked);
    var t := Begin(With(c, 1, fib), NOBODY, Disposing(1, DsMark));
    hide Reaches, Goes, RemoveFiber;
    Go(With(c, 1, fib), NOBODY, t, Disposing(1, DsMark), ANY, With(c, 1, marked), Disposing(1, DsRemove));
    Go(With(c, 1, marked), NOBODY, t, Disposing(1, DsRemove), ANY, With(d, 1, marked), Disposing(1, DsRefresh));
    Go(With(d, 1, marked), NOBODY, t, Disposing(1, DsRefresh), ANY, With(d, 1, marked), Refresh(1));
    Go(With(d, 1, marked), NOBODY, t, Refresh(1), ANY, With(d, 1, taken), Driver(1, PassStart));
    LastPass(d, t, taken);
    c' := With(d, 1,
        fib.(disposed := true, life := fib.life.(state := Disposed), drive := Drive(false, false, false, 3, 3, 1, 0)));
  }

  lemma DisposeGoes(c: Core, fib: Fiber, marked: Fiber)
    requires 1 in c.rts && !fib.disposed && !fib.fixed.root && fib.fixed.runtime == 1
    requires fib.drive == Drive(false, false, false, 1, 1, 1, 0)
    requires marked == fib.(disposed := true, drive := Drive(false, true, false, 2, 1, 1, 1))
    ensures var d := RemoveFiber(c, 1, 1);
      && d.bindings == c.bindings && d.store == c.store
      && Goes(With(c, 1, fib), Disposing(1, DsMark), ANY, With(c, 1, marked), Some(Disposing(1, DsRemove)), None)
      && Goes(With(c, 1, marked), Disposing(1, DsRemove), ANY, With(d, 1, marked), Some(Disposing(1, DsRefresh)), None)
      && Goes(With(d, 1, marked), Disposing(1, DsRefresh), ANY, With(d, 1, marked), Some(Refresh(1)), None)
      && Goes(With(d, 1, marked), Refresh(1), ANY, With(d, 1, marked.(drive := Drive(true, true, false, 3, 1, 0, 0))),
              Some(Driver(1, PassStart)), None)
  {
    hide CoreWf, FrameWf, ExecLoad, ExecRootUnload;
    var taken := marked.(drive := Drive(true, true, false, 3, 1, 0, 0));
    assert c.fibers[1 := fib][1 := marked] == c.fibers[1 := marked];
    assert c.fibers[1 := marked][1 := taken] == c.fibers[1 := taken];
  }

  /** With nothing in flight, fiber 1 is disposed of and final, and still lists its service `name` under `at`. */
  predicate HoldsStray(s: Sys, name: Name, at: Label) {
    && Quiet(s) && 1 in s.core.fibers && s.core.fibers[1].disposed && s.core.fibers[1].life.state == Disposed
    && Registered(s.core, at, name).Some? && s.core.store[s.core.bindings[at]].provider == 1
    && s.core.bindings[at] in s.core.fibers[1].list
  }

  ghost predicate Finally(tr: seq<Sys>, s: Sys) {
    Run(tr) && tr[|tr| - 1] == s
  }

  /** Disposal does not unregister what was registered while no generation was running: for every service name,
      under every label, there is a run after which a disposed fiber is in its final state with nothing in
      flight, and still holds that service. */
  lemma StrayOutlivesDisposal(name: Name, at: Label, need: Name, scope: map<Name, Label>)
    requires name != ""
    ensures exists tr, s :: Finally(tr, s) && HoldsStray(s, name, at)
  {
    hide Run, SysWf;
    Started();
    var t := Loads(START, 1, {need}, scope);
    var c := Loaded(START, 1);
    FirstPass(c, t, need, scope);
    Provides(c, NOBODY, 1, name, at, Waiting(need, scope));
    var c' := DisposesPending(Provided(c, 1, name, at), Offering(Waiting(need, scope), name, 2));
    var tr := Last(c', NOBODY);
    assert Finally(tr, tr[|tr| - 1]) && HoldsStray(tr[|tr| - 1], name, at);
  }

  // ----- a registration under a label that is not its provider's own -----

  /** The provider, plugin 2, while its body runs: it needs nothing, and `base` numbers were given out before. */
  function Serving(scope: map<Name, Label>, base: nat): Fiber {
    Young(2, {}, scope).(life := Life(State.Loading, Gen(map[]), true, base, true),
                         drive := Drive(true, false, false, 1, 1, 1, 0), snapshot := Some(map[]))
  }

  /** Its first pass starts its body. */
  lemma StartsBody(c: Core, t: nat, scope: map<Name, Label>)
    ensures Reaches(With(c, 2, Busy(Young(2, {}, scope))), NOBODY[t := Driver(2, PassStart)]) ==>
      Reaches(With(c, 2, Serving(scope, c.bindingSeq)), NOBODY[t := Driver(2, Body)])
  {
    hide Reaches;
    if Reaches(With(c, 2, Busy(Young(2, {}, scope))), NOBODY[t := Driver(2, PassStart)]) {
      var none: map<Name, nat> := map[];
      var on := Young(2, {}, scope).(drive := Drive(true, false, false, 1, 1, 1, 0));
      DriverGo(c, t, 2, PassStart, ANY, Busy(Young(2, {}, scope)), on, SyncTop);
      DriverGo(c, t, 2, SyncTop, ANY, on, on, Resolve({}, none, false));
      DriverGo(c, t, 2, Resolve({}, none, false), ANY, on, on, DecideHit(none));
      DriverGo(c, t, 2, DecideHit(none), ANY, on, on, ApplyLoad(none));
      DriverGo(c, t, 2, ApplyLoad(none), ANY, on, on, LoadClaim(none));
      StartsBodyOn(c, t, scope, on);
    }
  }

  lemma StartsBodyOn(c: Core, t: nat, scope: map<Name, Label>, on: Fiber)
    requires Reaches(With(c, 2, on), NOBODY[t := Driver(2, LoadClaim(map[]))])
    requires on == Young(2, {}, scope).(drive := Drive(true, false, false, 1, 1, 1, 0))
    ensures Reaches(With(c, 2, Serving(scope, c.bindingSeq)), NOBODY[t := Driver(2, Body)])
  {
    hide Reaches;
    var none: map<Name, nat> := map[];
    var claimed := on.(life := on.life.(live := true));
    var loading := on.(life := on.life.(live := true, state := State.Loading));
    DriverGo(c, t, 2, LoadClaim(none), ANY, on, claimed, LoadState(none));
    assert none.Keys == {};
    DriverGo(c, t, 2, LoadState(none), ANY, claimed, loading, LoadCheck({}, none));
    Commits(c, t, scope, loading);
  }

  lemma Commits(c: Core, t: nat, scope: map<Name, Label>, loading: Fiber)
    requires Reaches(With(c, 2, loading), NOBODY[t := Driver(2, LoadCheck({}, map[]))])
    requires loading == Young(2, {}, scope).(life := Life(State.Loading, Inactive, true, 0, false),
      drive := Drive(true, false, false, 1, 1, 1, 0))
    ensures Reaches(With(c, 2, Serving(scope, c.bindingSeq)), NOBODY[t := Driver(2, Body)])
  {
    hide Reaches;
    var none: map<Name, nat> := map[];
    var committed :=
        loading.(life := Life(State.Loading, Gen(map[]), true, c.bindingSeq, false), snapshot := Some(none));
    DriverGo(c, t, 2, LoadCheck({}, none), ANY, loading, loading, LoadCommit(none));
    assert KeysOf(With(c, 2, loading), none) == map[];
    DriverGo(c, t, 2, LoadCommit(none), ANY, loading, committed, Config);
    DriverGo(c, t, 2, Config, ANY, committed, Serving(scope, c.bindingSeq), Body);
  }

  function Activated(fib: Fiber): Fiber {
    fib.(life := fib.life.(state := Active))
  }

  /** Beside plugin 2, which provides `name` under `at` and nothing else, only plugin 1 waits, for `name` at `at`. */
  predicate Crossed(c: Core, name: Name, at: Label) {
    && c.bindings.Keys == {at} && c.bindings[at] in c.store
        && c.store[c.bindings[at]] == Binding(name, at, 2, true, None, Registration)
    && c.fibers.Keys == {0, 1} && c.fibers[1] == Waiting(name, map[name := at])
        && c.fibers[0].fixed == RootFiber().fixed
  }

  /** The provider becomes active; its notification goes to its own label for the name, where nobody waits. */
  lemma Activates(c: Core, t: nat, name: Name, at: Label, own: Label, fib: Fiber, idle: Fiber)
    requires Reaches(With(c, 2, fib), NOBODY[t := Driver(2, Body)]) && Crossed(c, name, at) && at != own
    requires !fib.disposed && fib.life.state == State.Loading && fib.drive == Drive(true, false, false, 1, 1, 1, 0)
    requires fib.fixed == Young(2, {}, map[name := own]).fixed && !fib.err
    requires idle == Activated(fib).(drive := Drive(false, false, false, 1, 1, 1, 0))
    ensures Reaches(With(c, 2, idle), NOBODY)
  {
    hide Reaches, Crossed;
    DriverGo(c, t, 2, Body, ANY, fib, fib, BodyDone);
    DriverGo(c, t, 2, BodyDone, ANY, fib, fib, BodyActive);
    ActiveGoes(c, fib);
    NobodyWants(c, name, at, own, idle);
    hide Goes;
    var u := Fork(With(c, 2, fib), t, Driver(2, BodyActive), ANY, With(c, 2, Activated(fib)), Driver(2, PassEnd),
        NotifyProvided(2));
    DriverEnds(c, NOBODY[u := NotifyProvided(2)], t, 2, Activated(fib), idle);
    NotifiesNobody(With(c, 2, idle), u, name, own);
  }

  lemma ActiveGoes(c: Core, fib: Fiber)
    ensures !fib.disposed && fib.life.state == State.Loading ==>
      Goes(With(c, 2, fib), Driver(2, BodyActive), ANY, With(c, 2, Activated(fib)), Some(Driver(2, PassEnd)),
          Some(NotifyProvided(2)))
  {
    hide CoreWf, FrameWf, ExecLoad, ExecRootUnload, ExecNotify;
    assert c.fibers[2 := fib][2 := Activated(fib)] == c.fibers[2 := Activated(fib)];
  }

  lemma NobodyWants(c: Core, name: Name, at: Label, own: Label, idle: Fiber)
    ensures Crossed(c, name, at) && at != own && idle.fixed == Young(2, {}, map[name := own]).fixed ==>
      ProvidedNames(With(c, 2, idle), 2) == {name} && LabelOf(idle, name) == own
      && (forall f :: f in With(c, 2, idle).fibers ==> !Wants(With(c, 2, idle), f, name, own))
  {
    if Crossed(c, name, at) && at != own && idle.fixed == Young(2, {}, map[name := own]).fixed {
      var c' := With(c, 2, idle);
      assert at in c'.bindings && c'.store[c'.bindings[at]].name == name;
      assert name in ProvidedNames(c', 2);
      forall f | f in c'.fibers ensures !Wants(c', f, name, own) { assert f == 0 || f == 1 || f == 2; }
    }
  }

  lemma NotifiesNobody(c: Core, u: nat, name: Name, own: Label)
    requires Reaches(c, NOBODY[u := NotifyProvided(2)]) && 2 in c.fibers && ProvidedNames(c, 2) == {name}
    requires LabelOf(c.fibers[2], name) == own
    requires forall f :: f in c.fibers ==> !Wants(c, f, name, own)
    ensures Reaches(c, NOBODY)
  {
    hide Reaches;
    NotifyGoes(c, name, own);
    WakeGoes(c, name, own);
    hide Goes, ProvidedNames, Wants;
    Go(c, NOBODY, u, NotifyProvided(2), ANY, c, NotifyNames(2, {name}));
    var v := Fork(c, u, NotifyNames(2, {name}), Named(name), c, NotifyNames(2, {}), Notify(name, own));
    Finish(c, NOBODY[v := Notify(name, own)], u, NotifyNames(2, {}), ANY, c);
    Go(c, NOBODY, v, Notify(name, own), ANY, c, Wake({}));
    Finish(c, NOBODY, v, Wake({}), ANY, c);
  }

  lemma NotifyGoes(c: Core, name: Name, own: Label)
    ensures 2 in c.fibers && LabelOf(c.fibers[2], name) == own && ProvidedNames(c, 2) == {name} ==>
      Goes(c, NotifyProvided(2), ANY, c, Some(NotifyNames(2, {name})), None)
      && Goes(c, NotifyNames(2, {name}), Named(name), c, Some(NotifyNames(2, {})), Some(Notify(name, own)))
      && Goes(c, NotifyNames(2, {}), ANY, c, None, None)
  {
    hide CoreWf, FrameWf, ProvidedNames, LabelOf, ExecDriver, ExecLoad, ExecRootUnload, ExecProvide, ExecEffect;
    hide ExecDisposer, ExecDisposing;
    var empty: set<Name> := {};
    assert {name} - {name} == empty;
  }

  lemma WakeGoes(c: Core, name: Name, own: Label)
    ensures (forall f :: f in c.fibers ==> !Wants(c, f, name, own)) ==>
      Goes(c, Notify(name, own), ANY, c, Some(Wake({})), None) && Goes(c, Wake({}), ANY, c, None, None)
  {
    hide CoreWf, FrameWf, Wants, Attached, ExecDriver, ExecLoad, ExecRootUnload, ExecProvide, ExecEffect;
    hide ExecDisposer, ExecDisposing;
    if (forall f :: f in c.fibers ==> !Wants(c, f, name, own)) {
      var nobody: set<nat> := {};
      assert (set f | f in c.fibers && Attached(c, f) && Wants(c, f, name, own)) == nobody;
    }
  }

  /** The provider's own label for `name` is `own`, and it registered `name` under the label `at` that fiber 1 uses. */
  predicate CrossProvided(c: Core, name: Name, at: Label, own: Label) {
    && 1 in c.fibers && 2 in c.fibers && Registered(c, at, name).Some? && c.store[c.bindings[at]].provider == 2
    && LabelOf(c.fibers[2], name) == own && LabelOf(c.fibers[1], name) == at
  }

  /** With nothing in flight, fiber 1 is in service and pending with the inactive epoch, although everything it
      injects resolves: `name` is registered for it, and not under its provider's own label. */
  ghost predicate StaysPending(s: Sys, name: Name, at: Label, own: Label) {
    && Quiet(s) && CrossProvided(s.core, name, at, own)
    && InService(s.core, 1) && s.core.fibers[1].life.state == Pending && s.core.fibers[1].life.epoch == Inactive
    && (forall n :: n in s.core.fibers[1].fixed.inject ==> Current(s.core, s.core.fibers[1], n).Some?)
    && !Converged(s.core, 1)
  }

  /** Without alignment quiescent consistency fails: for every name, registered under any label but its
      provider's own, there is a run after which nothing is in flight, a plugin in service is pending with the
      inactive epoch, and yet every service it injects resolves. */
  lemma MisalignedStaysPending(name: Name, at: Label, own: Label)
    requires name != "" && at != own
    ensures exists tr, s :: Finally(tr, s) && StaysPending(s, name, at, own)
  {
    hide Reaches, Loaded, Provided, Offering, Serving, Waiting, Activated, Crossed, CrossProvided, Vacant, Offers;
    hide Converged, InService, Current, Registered, Steps, SysWf, Run;
    var scope, offer: map<Name, Label> := map[name := at], map[name := own];
    Started();
    StartVacant();
    var t1 := Loads(START, 1, {name}, scope);
    FirstPass(Loaded(START, 1), t1, name, scope);
    var c := With(Loaded(START, 1), 1, Waiting(name, scope));
    SecondVacant(name, scope);
    var t := Loads(c, 2, {}, offer);
    var b := Loaded(c, 2);
    StartsBody(b, t, offer);
    var e := b.bindingSeq + 1;
    var d, fib := Provided(b, 2, name, at), Offering(Serving(offer, b.bindingSeq), name, e);
    ServingOffers(b, c, name, at, offer);
    Provides(b, NOBODY[t := Driver(2, Body)], 2, name, at, Serving(offer, b.bindingSeq));
    var idle := Activated(fib).(drive := Drive(false, false, false, 1, 1, 1, 0));
    SecondCrossed(c, name, at);
    OfferingFacts(offer, b.bindingSeq, name, e);
    Activates(d, t, name, at, own, fib, idle);
    CrossedUnsettled(d, name, at, own, idle);
    var tr := Last(With(d, 2, idle), NOBODY);
    assert Finally(tr, tr[|tr| - 1]) && StaysPending(tr[|tr| - 1], name, at, own);
  }

  lemma StartVacant()
    ensures Vacant(START, 1) && Loaded(START, 1).bindings == map[]
  {}

  lemma SecondVacant(name: Name, scope: map<Name, Label>)
    ensures Vacant(With(Loaded(START, 1), 1, Waiting(name, scope)), 2)
  {}

  lemma ServingOffers(b: Core, c: Core, name: Name, at: Label, offer: map<Name, Label>)
    ensures 0 in c.fibers && b == Loaded(c, 2) && c.bindings == map[] ==>
      Offers(b, Serving(offer, b.bindingSeq), at)
  {}

  lemma SecondCrossed(c: Core, name: Name, at: Label)
    ensures c == With(Loaded(START, 1), 1, Waiting(name, map[name := at])) ==>
      Crossed(Provided(Loaded(c, 2), 2, name, at), name, at)
  {}

  lemma OfferingFacts(offer: map<Name, Label>, base: nat, name: Name, e: nat)
    ensures var fib := Offering(Serving(offer, base), name, e);
      && !fib.disposed && fib.life.state == State.Loading && fib.drive == Drive(true, false, false, 1, 1, 1, 0)
      && fib.fixed == Young(2, {}, offer).fixed && !fib.err
      && Activated(fib).life.state == Active && Activated(fib).fixed == fib.fixed
  {}

  lemma CrossedUnsettled(c: Core, name: Name, at: Label, own: Label, idle: Fiber)
    requires Crossed(c, name, at) && idle.life.state == Active && idle.fixed == Young(2, {}, map[name := own]).fixed
    ensures var c' := With(c, 2, idle);
      && InService(c', 1) && CrossProvided(c', name, at, own) && !Converged(c', 1)
      && (forall n :: n in c'.fibers[1].fixed.inject ==> Current(c', c'.fibers[1], n).Some?)
      && c'.fibers[1].life.state == Pending && c'.fibers[1].life.epoch == Inactive
  {
    assert Current(With(c, 2, idle), c.fibers[1], name) == Some(c.bindings[at]);
  }
}
