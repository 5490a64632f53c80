/** The reactive core (fiber.go, service.go, registry.go) as a step machine.

    One activation of `refresh`, `drive`, `notify`, `provide`, a disposer, `Dispose`, `Restart` or
    `load` is a frame; a frame's program counter names the critical section it is about to enter, and
    one step executes exactly one critical section. Any activation may step at any time: a caller may
    even run ahead of an activation it started, so every interleaving of the real call stacks is one
    of the runs below. Waits that carry a guarantee (a disposer's shared once) are modelled as
    blocked steps. */
module Reactive {
  import opened Options

  type Name = string
  type Label = string

  // ----- the objects of one application -----

  datatype State = Pending | Loading | Active | Failed | Unloading | Disposed

  /** Provider UID and binding sequence: one component of a dependency epoch. */
  datatype Key = Key(uid: nat, num: nat)

  /** The dependency epoch: the inactive sentinel, or one key for every injected name.
      Module Epochs shows that the encoded strings are equal exactly when these values are. */
  datatype Epoch = Inactive | Gen(keys: map<Name, Key>)

  /** What an effect entry stands for: a registered service, a plain effect whose body's context is a scope for
      more effects, or the slot of a child fiber in its parent. */
  datatype Kind = Registration | Scope | Child(f: nat)

  /** What is fixed about an effect entry. Its number, the key in `Core.store`, is its identity; `owner` is the
      entry through whose scope it was made, and none means the fiber itself. All kinds are numbered by one
      counter here, by registrations alone in the code, which orders registrations the same way. */
  datatype Binding = Binding(name: Name, at: Label, provider: nat, available: bool, owner: Option<nat>, kind: Kind)

  /** What is fixed when a fiber is constructed. */
  datatype Fixed = Fixed(root: bool, parent: Option<nat>, runtime: nat, inject: set<Name>, scope: map<Name, Label>)

  /** A fiber's current generation. `base` and `started` are history: the sequence counter when the
      epoch was committed, and whether a body started whose generation is not yet completely unwound. */
  datatype Life = Life(state: State, epoch: Epoch, live: bool, base: nat, started: bool)

  /** The transition driver. From `requests` on the fields are history: how many passes were requested,
      how many of these a pass started after; and, for the current drive, the passes it started and the
      times `dirty` was set while it ran. */
  datatype Drive = Drive(busy: bool, dirty: bool, forceReload: bool, requests: nat, served: nat, passes: nat,
      marks: nat)

  /** A fiber. `fixed.scope` is the flattened isolate map of its context; `list` holds the entries of its
      disposable list, by their numbers. `own` and `strays` are history: the entries, nested ones included,
      made by the generation that is standing, and those made while none was (or numbered before it). */
  datatype Fiber = Fiber(
    fixed: Fixed,
    life: Life,
    drive: Drive,
    err: bool,
    snapshot: Option<map<Name, nat>>,
    disposed: bool,
    published: bool,
    list: set<nat>,
    own: set<nat>,
    strays: set<nat>)

  /** An effect entry: its body still runs (and a teardown request may be deferred), its disposer is
      installed, the disposer is running under the shared once, or it has finished. */
  datatype Phase = Running(deferred: bool) | Ready | Releasing | Done

  datatype Runtime = Runtime(def: nat, fibers: set<nat>, claims: int)

  datatype Core = Core(
    fibers: map<nat, Fiber>,
    store: map<nat, Binding>,
    bindings: map<Label, nat>,
    entries: map<nat, Phase>,
    runtimes: map<nat, nat>,
    rts: map<nat, Runtime>,
    counter: nat,
    bindingSeq: nat,
    runtimeSeq: nat)

  // ----- program counters -----

  /** `unload` and `finalizeDispose`. */
  datatype UPc = UClaim | UState | UClear | UDrain(todo: set<nat>) | UReset | UPending | UFinal

  /** Who called `unload`. */
  datatype UCaller = BySync | ByReload | ByFail

  /** `drive` with `sync`, `reload`, `load` and `fail` inlined. */
  datatype Pc =
    | PassStart
    | SyncTop
    | Resolve(todo: set<Name>, got: map<Name, nat>, again: bool)
    | ResolveState(name: Name, found: nat, todo: set<Name>, got: map<Name, nat>, again: bool)
    | DecideMiss(miss: Name)
    | DecideHit(got: map<Name, nat>)
    | ApplyUnload(miss: Name)
    | ApplyLoad(got: map<Name, nat>)
    | LoadClaim(got: map<Name, nat>)
    | LoadState(got: map<Name, nat>)
    | LoadCheck(check: set<Name>, got: map<Name, nat>)
    | GiveBack
    | GiveBackState
    | GiveBackRefresh
    | LoadCommit(got: map<Name, nat>)
    | Config
    | Body
    | BodyDone
    | BodyActive
    | Unload(u: UPc, caller: UCaller)
    | ReloadMid
    | FailMid
    | FailState
    | PassEnd

  datatype ProvidePc =
    | PvAlloc | PvGate(e: nat) | PvEnter(e: nat) | PvRegister(e: nat) | PvAbort(e: nat)
    | PvSnapshot(e: nat) | PvNotify(e: nat) | PvInstall(e: nat)

  datatype EffectPc = FxEnter | FxBody(e: nat) | FxAbandon(e: nat)

  datatype DisposerPc = UnRegister | UnSnapshot | UnChild | UnDone

  datatype DisposePc = DsMark | DsRemove | DsRefresh

  datatype RestartPc = RsGate | RsMark

  datatype LoadPc =
    | LdGate | LdClaim | LdNew(r: nat) | LdEnter(r: nat, f: nat) | LdAttach(r: nat, f: nat, e: nat)
    | LdInstall(r: nat, f: nat, e: nat) | LdStart(r: nat, f: nat, e: nat) | LdDiscard(r: nat, f: nat)

  datatype Frame =
    | Refresh(f: nat)
    | Driver(f: nat, pc: Pc)
    | RootUnload(f: nat, u: UPc)
    | NotifyProvided(p: nat)
    | NotifyNames(p: nat, names: set<Name>)
    | Notify(name: Name, at: Label)
    | Wake(targets: set<nat>)
    | Provide(f: nat, name: Name, at: Label, owner: Option<nat>, available: bool, pv: ProvidePc)
    | Effect(f: nat, owner: Option<nat>, fx: EffectPc)
    | Disposer(e: nat, un: DisposerPc)
    | Release(e: nat)
    | Disposing(f: nat, ds: DisposePc)
    | Restarting(f: nat, update: bool, rs: RestartPc)
    | Load(parent: nat, owner: Option<nat>, def: nat, inject: set<Name>, scope: map<Name, Label>, ld: LoadPc)

  /** Resolves one nondeterministic step: which name, entry or fiber is next, and whether user code
      succeeds. */
  datatype Choice = Choice(name: Name, entry: nat, fiber: nat, ok: bool)

  /** A step is blocked, or leaves a core, the frame's continuation and a newly started activation. */
  datatype Out =
    | Blocked(core: Core, cont: Option<Frame>, call: Option<Frame>)
    | Ran(core: Core, cont: Option<Frame>, call: Option<Frame>)

  /** Nothing happens. */
  function Stuck(c: Core): Out {
    Blocked(c, None, None)
  }

  datatype UOut =
    | UBlocked(core: Core, next: Option<UPc>, call: Option<Frame>)
    | UMoved(core: Core, next: Option<UPc>, call: Option<Frame>)

  datatype Sys = Sys(core: Core, pool: map<nat, Frame>, next: nat)

  // ----- reading the core -----

  /** `Context.isolateLabel` on a fiber's own context. */
  function LabelOf(fib: Fiber, name: Name): Label {
    if name in fib.fixed.scope then fib.fixed.scope[name] else name
  }

  /** The name-checked registry slot: the binding registered for `name` in `at`. */
  function Registered(c: Core, at: Label, name: Name): Option<nat> {
    if at in c.bindings && c.bindings[at] in c.store && c.store[c.bindings[at]].name == name
    then Some(c.bindings[at]) else None
  }

  predicate IsActive(c: Core, f: nat) {
    f in c.fibers && c.fibers[f].life.state == Active
  }

  /** `serviceBinding.life.live`: the provider is active and the availability predicate passes. */
  predicate Live(c: Core, e: nat) {
    e in c.store && IsActive(c, c.store[e].provider) && c.store[e].available
  }

  /** `core.lookupService`. */
  function Lookup(c: Core, at: Label, name: Name): Option<nat> {
    var slot := Registered(c, at, name);
    if slot.Some? && Live(c, slot.value) then slot else None
  }

  function KeyOf(c: Core, e: nat): Key
    requires e in c.store
  {
    Key(c.store[e].provider, e)
  }

  function KeysOf(c: Core, got: map<Name, nat>): map<Name, Key> {
    map n | n in got && got[n] in c.store :: KeyOf(c, got[n])
  }

  function With(c: Core, f: nat, fib: Fiber): Core {
    c.(fibers := c.fibers[f := fib])
  }

  function WithPhase(c: Core, e: nat, phase: Phase): Core {
    c.(entries := c.entries[e := phase])
  }

  function WithRuntime(c: Core, r: nat, rt: Runtime): Core {
    c.(rts := c.rts[r := rt])
  }

  // ----- well-formed references -----

  predicate GotWf(c: Core, inject: set<Name>, got: map<Name, nat>) {
    forall n :: n in got ==> n in inject && got[n] in c.store && c.store[got[n]].name == n
  }

  predicate UPcWf(c: Core, u: UPc) {
    u.UDrain? ==> u.todo <= c.entries.Keys
  }

  /** What `resolveInjections` found for the names of `inject`, when `todo` are still to be looked at. */
  predicate Found(c: Core, inject: set<Name>, todo: set<Name>, got: map<Name, nat>) {
    todo <= inject && GotWf(c, inject, got) && todo + got.Keys == inject
  }

  predicate FoundAll(c: Core, inject: set<Name>, got: map<Name, nat>) {
    GotWf(c, inject, got) && got.Keys == inject
  }

  predicate PcWf(c: Core, fib: Fiber, pc: Pc) {
    var inject := fib.fixed.inject;
    match pc
    case Resolve(todo, got, _) => Found(c, inject, todo, got)
    case ResolveState(name, found, todo, got, _) =>
      Found(c, inject, todo, got) && name in todo && found in c.store && c.store[found].name == name
    case DecideMiss(miss) => miss in inject
    case ApplyUnload(miss) => miss in inject
    case DecideHit(got) => FoundAll(c, inject, got)
    case ApplyLoad(got) => FoundAll(c, inject, got)
    case LoadClaim(got) => FoundAll(c, inject, got)
    case LoadState(got) => FoundAll(c, inject, got)
    case LoadCheck(check, got) => FoundAll(c, inject, got) && check <= got.Keys
    case LoadCommit(got) => FoundAll(c, inject, got)
    case Unload(u, _) => UPcWf(c, u)
    case _ => true
  }

  /** The context an effect is made through: the fiber's own, or the scope of one of its plain effects. */
  predicate OwnerWf(c: Core, f: nat, owner: Option<nat>) {
    owner.Some? ==>
      && owner.value in c.entries && owner.value in c.store
      && c.store[owner.value].provider == f && c.store[owner.value].kind == Scope
  }

  /** Entry `e` was numbered for this effect. */
  predicate NumberedFor(c: Core, e: nat, f: nat, owner: Option<nat>, kind: Kind) {
    e in c.store && c.store[e].provider == f && c.store[e].owner == owner && c.store[e].kind == kind
  }

  predicate ProvideWf(c: Core, f: nat, name: Name, at: Label, owner: Option<nat>, pv: ProvidePc) {
    && f in c.fibers && c.fibers[f].published && OwnerWf(c, f, owner)
    && (!pv.PvAlloc? ==>
        NumberedFor(c, pv.e, f, owner, Registration) && c.store[pv.e].name == name && c.store[pv.e].at == at)
    && (!pv.PvAlloc? && !pv.PvGate? && !pv.PvEnter? ==> pv.e in c.entries)
  }

  predicate EffectWf(c: Core, f: nat, owner: Option<nat>, fx: EffectPc) {
    && f in c.fibers && c.fibers[f].published && OwnerWf(c, f, owner)
    && (!fx.FxEnter? ==> fx.e in c.entries && NumberedFor(c, fx.e, f, owner, Scope))
  }

  predicate LoadWf(c: Core, parent: nat, owner: Option<nat>, def: nat, ld: LoadPc) {
    && parent in c.fibers && c.fibers[parent].published && OwnerWf(c, parent, owner)
    && (!ld.LdGate? && !ld.LdClaim? ==> ld.r in c.rts && c.rts[ld.r].def == def)
    && (!ld.LdGate? && !ld.LdClaim? && !ld.LdNew? ==>
          ld.f in c.fibers && ld.f != 0 && c.fibers[ld.f].fixed.runtime == ld.r
              && c.fibers[ld.f].fixed.parent == Some(parent))
    && (ld.LdAttach? || ld.LdInstall? || ld.LdStart? ==>
        ld.e in c.entries && NumberedFor(c, ld.e, parent, owner, Child(ld.f)))
    && (ld.LdInstall? || ld.LdStart? ==> c.fibers[ld.f].published)
  }

  /** The sections a disposer goes through, by what its entry stands for. */
  predicate SectionOf(kind: Kind, un: DisposerPc) {
    match un
    case UnRegister => kind == Registration
    case UnSnapshot => kind == Registration
    case UnChild => kind.Child?
    case UnDone => true
  }

  predicate PublishedFiber(c: Core, f: nat) {
    f in c.fibers && c.fibers[f].published
  }

  predicate FrameWf(c: Core, fr: Frame) {
    match fr
    case Refresh(f) => PublishedFiber(c, f)
    case Driver(f, pc) => PublishedFiber(c, f) && PcWf(c, c.fibers[f], pc)
    case RootUnload(f, u) => f == 0 && PublishedFiber(c, f) && UPcWf(c, u)
    case NotifyProvided(p) => p in c.fibers
    case NotifyNames(p, _) => p in c.fibers
    case Notify(_, _) => true
    case Wake(targets) => forall f :: f in targets ==> PublishedFiber(c, f)
    case Provide(f, name, at, owner, _, pv) => ProvideWf(c, f, name, at, owner, pv)
    case Effect(f, owner, fx) => EffectWf(c, f, owner, fx)
    case Disposer(e, un) => e in c.store && e in c.entries && SectionOf(c.store[e].kind, un)
    case Release(e) => e in c.store && e in c.entries
    case Disposing(f, _) => PublishedFiber(c, f)
    case Restarting(f, _, _) => PublishedFiber(c, f)
    case Load(parent, owner, def, _, _, ld) => LoadWf(c, parent, owner, def, ld)
  }

  predicate SnapshotWf(c: Core, held: map<Name, nat>) {
    forall n :: n in held ==> held[n] in c.store && c.store[held[n]].name == n
  }

  predicate FiberWf(c: Core, f: nat, fib: Fiber) {
    && f <= c.counter
    && (fib.fixed.root <==> f == 0)
    && (fib.fixed.parent.Some? ==> fib.fixed.parent.value < f && fib.fixed.parent.value in c.fibers)
    && (f != 0 ==> fib.fixed.runtime in c.rts)
    && (fib.fixed.root ==> fib.published && fib.fixed.inject == {})
    && fib.list <= c.entries.Keys
    && fib.life.base <= c.bindingSeq
    && (fib.snapshot.Some? ==> SnapshotWf(c, fib.snapshot.value))
    && (fib.life.epoch.Gen? ==> fib.life.epoch.keys.Keys == fib.fixed.inject)
  }

  predicate BindingWf(c: Core, e: nat, b: Binding) {
    && e <= c.bindingSeq && b.provider in c.fibers && OwnerWf(c, b.provider, b.owner)
    && (b.owner.Some? ==> b.owner.value < e)
    && (b.kind.Child? ==> b.kind.f in c.fibers && b.kind.f != 0 && c.fibers[b.kind.f].fixed.parent == Some(b.provider))
  }

  predicate SlotWf(c: Core, at: Label, e: nat) {
    e in c.store && c.store[e].at == at && e in c.entries
  }

  predicate RuntimeWf(c: Core, r: nat, rt: Runtime) {
    r <= c.runtimeSeq && forall f :: f in rt.fibers ==>
        f in c.fibers && c.fibers[f].published && f != 0 && c.fibers[f].fixed.runtime == r
  }

  predicate CoreWf(c: Core) {
    && 0 in c.fibers
    && (forall f :: f in c.fibers ==> FiberWf(c, f, c.fibers[f]))
    && (forall e :: e in c.store ==> BindingWf(c, e, c.store[e]))
    && c.entries.Keys <= c.store.Keys
    && (forall at :: at in c.bindings ==> SlotWf(c, at, c.bindings[at]))
    && (forall r :: r in c.rts ==> RuntimeWf(c, r, c.rts[r]))
    && (forall d :: d in c.runtimes ==> c.runtimes[d] in c.rts && c.rts[c.runtimes[d]].def == d)
  }

  predicate Fits(c: Core, fr: Frame) {
    CoreWf(c) && FrameWf(c, fr)
  }

  predicate SysWf(s: Sys) {
    && CoreWf(s.core)
    && (forall t :: t in s.pool ==> t < s.next)
    && (forall t {:trigger FrameWf(s.core, s.pool[t])} :: t in s.pool ==> FrameWf(s.core, s.pool[t]))
  }

  // ----- fiber.go: the transition driver -----

  /** A disposed fiber is left alone. */
  function Forget(fib: Fiber): Life {
    if fib.disposed then fib.life else fib.life.(epoch := Inactive)
  }

  function WithDrive(fib: Fiber, drive: Drive): Fiber {
    fib.(drive := drive)
  }

  /** `setState`: a disposed fiber accepts only unloading and disposed. */
  function SetState(fib: Fiber, st: State): Life {
    if fib.disposed && st != Unloading && st != Disposed then fib.life else fib.life.(state := st)
  }

  /** `setState` wakes dependents only when service availability changed. */
  function Announce(f: nat, before: State, after: State): Option<Frame> {
    if (before == Active) != (after == Active) then Some(NotifyProvided(f)) else None
  }

  /** Records a request on a fiber whose driver may be running. */
  function Marked(d: Drive): Drive {
    d.(dirty := true, requests := d.requests + 1, marks := d.marks + 1)
  }

  /** `beginTransition` on an idle fiber. */
  function Taken(d: Drive): Drive {
    d.(busy := true, requests := d.requests + 1, passes := 0, marks := 0)
  }

  function ExecRefresh(c: Core, f: nat): Out {
    if f !in c.fibers then Stuck(c) else
    var fib := c.fibers[f];
    if fib.drive.busy then Ran(With(c, f, WithDrive(fib, Marked(fib.drive))), None, None)
    else Ran(With(c, f, WithDrive(fib, Taken(fib.drive))), Some(Driver(f, PassStart)), None)
  }

  /** What each critical section of `unload` and `finalizeDispose` writes. */
  function UnloadLife(fib: Fiber, u: UPc): Life {
    match u
    case UClaim => fib.life.(live := false)
    case UState => SetState(fib, Unloading)
    case UClear => fib.life
    case UDrain(_) => fib.life
    case UReset => fib.life.(started := false)
    case UPending => SetState(fib, Pending)
    case UFinal => SetState(fib, Disposed)
  }

  function UnloadFiber(fib: Fiber, u: UPc): Fiber {
    fib.(life := UnloadLife(fib, u),
         list := if u.UClear? then {} else fib.list,
         own := if u.UReset? then {} else fib.own,
         snapshot := if u.UReset? then None else fib.snapshot)
  }

  /** Where `unload` goes next; None when it returns. */
  function UnloadNext(fib: Fiber, u: UPc): Option<UPc> {
    match u
    case UClaim => if fib.life.live then Some(UState) else if fib.disposed then Some(UFinal) else None
    case UState => Some(UClear)
    case UClear => Some(UDrain(fib.list))
    case UDrain(_) => Some(UReset)
    case UReset => Some(if fib.disposed then UFinal else UPending)
    case UPending => None
    case UFinal => None
  }

  /** Where the disposer of an entry begins. */
  function FirstSection(c: Core, e: nat): DisposerPc {
    if e !in c.store then UnDone else
    match c.store[e].kind
    case Registration => UnRegister
    case Scope => UnDone
    case Child(_) => UnChild
  }

  /** One entry of the cleared list: a request on a running body is deferred, a ready entry starts its
      disposer, and the loop waits for a disposer that is running. */
  function ExecDrain(c: Core, todo: set<nat>, e: nat): UOut
    requires todo <= c.entries.Keys && e in todo
  {
    match c.entries[e]
    case Running(_) => UMoved(WithPhase(c, e, Running(true)), Some(UDrain(todo - {e})), None)
    case Ready => UMoved(WithPhase(c, e, Releasing), Some(UDrain(todo)), Some(Disposer(e, FirstSection(c, e))))
    case Releasing => UBlocked(c, None, None)
    case Done => UMoved(c, Some(UDrain(todo - {e})), None)
  }

  function ExecUnload(c: Core, f: nat, u: UPc, ch: Choice): UOut {
    if f !in c.fibers || !UPcWf(c, u) then UBlocked(c, None, None)
    else if u.UDrain? && u.todo != {} then
      if ch.entry in u.todo then ExecDrain(c, u.todo, ch.entry) else UBlocked(c, None, None)
    else
      var fib' := UnloadFiber(c.fibers[f], u);
      UMoved(With(c, f, fib'), UnloadNext(c.fibers[f], u), Announce(f, c.fibers[f].life.state, fib'.life.state))
  }

  /** Where the driver goes when `unload` returns. */
  function AfterUnload(caller: UCaller): Pc {
    match caller
    case BySync => PassEnd
    case ByReload => ReloadMid
    case ByFail => FailMid
  }

  /** Where the driver goes when a lookup of `resolveInjections` fails. */
  function AfterMiss(name: Name, again: bool): Pc {
    if again then PassEnd else DecideMiss(name)
  }

  /** What each critical section of the driver writes to the generation, outside `unload`. */
  function DriverLife(c: Core, fib: Fiber, pc: Pc): Life {
    match pc
    case ApplyUnload(_) => Forget(fib)
    case LoadClaim(_) => if fib.disposed then fib.life else fib.life.(live := true)
    case LoadState(_) => SetState(fib, Loading)
    case GiveBack => fib.life.(live := false, epoch := Inactive)
    case GiveBackState => SetState(fib, Pending)
    case LoadCommit(got) => fib.life.(epoch := Gen(KeysOf(c, got)), base := c.bindingSeq)
    case BodyActive => SetState(fib, Active)
    case ReloadMid => Forget(fib)
    case FailState => SetState(fib, Failed)
    case _ => fib.life
  }

  /** What it writes to its own bookkeeping. */
  function DriverDrive(fib: Fiber, pc: Pc): Drive {
    var d := fib.drive;
    match pc
    case PassStart => d.(dirty := false, served := d.requests, passes := d.passes + 1)
    case SyncTop => if fib.fixed.root then d else d.(forceReload := false)
    case PassEnd => if d.dirty then d else d.(busy := false)
    case _ => d
  }

  /** `err` is cleared by a reload and by a body that succeeded, and set by a failure. */
  function DriverErr(fib: Fiber, pc: Pc): bool {
    if pc.FailMid? then true
    else if (pc.BodyDone? || pc.ReloadMid?) && !fib.disposed then false
    else fib.err
  }

  function DriverFiber(c: Core, fib: Fiber, pc: Pc, ch: Choice): Fiber {
    var life := DriverLife(c, fib, pc);
    fib.(life := if pc.Config? && ch.ok then life.(started := true) else life,
         drive := DriverDrive(fib, pc),
         err := DriverErr(fib, pc),
         snapshot := if pc.LoadCommit? then Some(pc.got) else fib.snapshot)
  }

  /** Where the driver goes next, outside `unload`; None when it releases the fiber. */
  function DriverNext(c: Core, fib: Fiber, pc: Pc, ch: Choice): Option<Pc> {
    match pc
    case PassStart => Some(SyncTop)
    case SyncTop =>
      if fib.fixed.root then Some(PassEnd)
      else if fib.disposed then Some(Unload(UClaim, BySync))
      else if fib.drive.forceReload then Some(Unload(UClaim, ByReload))
      else Some(Resolve(fib.fixed.inject, map[], false))
    case Resolve(todo, got, again) =>
      if todo == {} then Some(if again then LoadClaim(got) else DecideHit(got))
      else
        var slot := Registered(c, LabelOf(fib, ch.name), ch.name);
        Some(if slot.Some? then ResolveState(ch.name, slot.value, todo, got, again) else AfterMiss(ch.name, again))
    case ResolveState(name, found, todo, got, again) =>
      Some(if Live(c, found) then Resolve(todo - {name}, got[name := found], again) else AfterMiss(name, again))
    case DecideMiss(miss) => Some(if fib.life.epoch == Inactive then PassEnd else ApplyUnload(miss))
    case DecideHit(got) =>
      Some(if fib.life.epoch == Gen(KeysOf(c, got)) then PassEnd
           else if fib.life.live then Unload(UClaim, ByReload) else ApplyLoad(got))
    case ApplyUnload(_) => Some(if fib.disposed then PassEnd else Unload(UClaim, BySync))
    case ApplyLoad(got) => Some(if fib.disposed then PassEnd else LoadClaim(got))
    case LoadClaim(got) => Some(if fib.disposed then PassEnd else LoadState(got))
    case LoadState(got) => Some(if fib.disposed then PassEnd else LoadCheck(got.Keys, got))
    case LoadCheck(check, got) =>
      if check == {} then Some(LoadCommit(got))
      else Some(if ch.name in got && Live(c, got[ch.name]) then LoadCheck(check - {ch.name}, got) else GiveBack)
    case GiveBack => Some(GiveBackState)
    case GiveBackState => Some(GiveBackRefresh)
    case GiveBackRefresh => Some(PassEnd)
    case LoadCommit(_) => Some(Config)
    case Config => Some(if ch.ok then Body else Unload(UClaim, ByFail))
    case Body => Some(if ch.ok then BodyDone else Unload(UClaim, ByFail))
    case BodyDone => Some(if fib.disposed then Unload(UClaim, BySync) else BodyActive)
    case BodyActive => Some(PassEnd)
    case Unload(_, caller) => Some(AfterUnload(caller))
    case ReloadMid => Some(if fib.disposed then PassEnd else Resolve(fib.fixed.inject, map[], true))
    case FailMid => Some(if fib.disposed then PassEnd else FailState)
    case FailState => Some(PassEnd)
    case PassEnd => if fib.drive.dirty then Some(PassStart) else None
  }

  /** The chosen name must be one that is still to be looked at. */
  predicate Chooses(pc: Pc, ch: Choice) {
    && (pc.Resolve? && pc.todo != {} ==> ch.name in pc.todo)
    && (pc.LoadCheck? && pc.check != {} ==> ch.name in pc.check)
  }

  function DriverFrame(f: nat, next: Option<Pc>): Option<Frame> {
    if next.Some? then Some(Driver(f, next.value)) else None
  }

  function ExecDriver(c: Core, f: nat, pc: Pc, ch: Choice): Out {
    if f !in c.fibers || !PcWf(c, c.fibers[f], pc) then Stuck(c) else
    var fib := c.fibers[f];
    if pc.Unload? then
      match ExecUnload(c, f, pc.u, ch)
      case UBlocked(_, _, _) => Stuck(c)
      case UMoved(c', next, call) =>
        Ran(c', Some(Driver(f, if next.Some? then Unload(next.value, pc.caller) else AfterUnload(pc.caller))), call)
    else if !Chooses(pc, ch) then Stuck(c)
    else
      var fib' := DriverFiber(c, fib, pc, ch);
      Ran(With(c, f, fib'), DriverFrame(f, DriverNext(c, fib, pc, ch)),
          if pc.GiveBackRefresh? then Some(Refresh(f)) else Announce(f, fib.life.state, fib'.life.state))
  }

  function ExecRootUnload(c: Core, f: nat, u: UPc, ch: Choice): Out {
    match ExecUnload(c, f, u, ch)
    case UBlocked(_, _, _) => Stuck(c)
    case UMoved(c', next, call) => Ran(c', if next.Some? then Some(RootUnload(f, next.value)) else None, call)
  }

  function ExecDisposing(c: Core, f: nat, ds: DisposePc): Out {
    if !CoreWf(c) || f !in c.fibers then Stuck(c) else
    var fib := c.fibers[f];
    match ds
    case DsMark =>
      if fib.disposed then Ran(c, None, None)
      else Ran(With(c, f, fib.(disposed := true, drive := Marked(fib.drive))), Some(Disposing(f, DsRemove)), None)
    case DsRemove =>
      assert FiberWf(c, f, fib);
      Ran(if fib.fixed.root then c else RemoveFiber(c, fib.fixed.runtime, f), Some(Disposing(f, DsRefresh)), None)
    case DsRefresh =>
      Ran(c, Some(if fib.fixed.root then RootUnload(f, UClaim) else Refresh(f)), None)
  }

  function ExecRestarting(c: Core, f: nat, update: bool, rs: RestartPc): Out {
    if f !in c.fibers then Stuck(c) else
    var fib := c.fibers[f];
    match rs
    case RsGate => Ran(c, if fib.disposed then None else Some(Restarting(f, update, RsMark)), None)
    case RsMark =>
      Ran(With(c, f, fib.(drive := fib.drive.(forceReload := true), err := if update then false else fib.err)),
          Some(Refresh(f)), None)
  }

  // ----- service.go: notification and provision -----

  /** `providedNames`. */
  function ProvidedNames(c: Core, p: nat): set<Name> {
    set at | at in c.bindings && c.bindings[at] in c.store && c.store[c.bindings[at]].provider == p
      :: c.store[c.bindings[at]].name
  }

  /** `snapshotFibers`: only runtimes in the registry are walked. */
  predicate Attached(c: Core, f: nat) {
    && f in c.fibers && c.fibers[f].fixed.runtime in c.rts
    && f in c.rts[c.fibers[f].fixed.runtime].fibers
    && c.rts[c.fibers[f].fixed.runtime].def in c.runtimes
    && c.runtimes[c.rts[c.fibers[f].fixed.runtime].def] == c.fibers[f].fixed.runtime
  }

  predicate Wants(c: Core, f: nat, name: Name, at: Label) {
    f in c.fibers && name in c.fibers[f].fixed.inject && LabelOf(c.fibers[f], name) == at
  }

  function ExecNotify(c: Core, fr: Frame, ch: Choice): Out {
    if !FrameWf(c, fr) then Stuck(c) else
    match fr
    case NotifyProvided(p) => Ran(c, Some(NotifyNames(p, ProvidedNames(c, p))), None)
    case NotifyNames(p, names) =>
      if names == {} then Ran(c, None, None)
      else if ch.name !in names then Stuck(c)
      else Ran(c, Some(NotifyNames(p, names - {ch.name})), Some(Notify(ch.name, LabelOf(c.fibers[p], ch.name))))
    case Notify(name, at) =>
      Ran(c, Some(Wake(set f | f in c.fibers && Attached(c, f) && Wants(c, f, name, at))), None)
    case Wake(targets) =>
      if targets == {} then Ran(c, None, None)
      else if ch.fiber !in targets then Stuck(c)
      else Ran(c, Some(Wake(targets - {ch.fiber})), Some(Refresh(ch.fiber)))
    case _ => Stuck(c)
  }

  /** `tryEffect` accepts an effect while its fiber is neither unloading nor disposed of and, for a nested
      one, while its owner's body runs. */
  predicate Accepts(c: Core, f: nat, owner: Option<nat>) {
    && f in c.fibers && !c.fibers[f].disposed && c.fibers[f].life.state != Unloading
    && (owner.Some? ==> owner.value in c.entries && c.entries[owner.value].Running?)
  }

  /** Whether an entry made now belongs to the standing generation. */
  predicate Generates(fib: Fiber, e: nat) {
    fib.life.started && fib.life.base < e
  }

  function Entered(fib: Fiber, e: nat, owner: Option<nat>): Fiber {
    fib.(list := if owner.None? then fib.list + {e} else fib.list,
         own := if Generates(fib, e) then fib.own + {e} else fib.own,
         strays := if Generates(fib, e) then fib.strays else fib.strays + {e})
  }

  /** `tryEffect` publishes an entry, in the fiber's list or under its owner, before its body runs. */
  function Publish(c: Core, f: nat, e: nat, owner: Option<nat>): Core
    requires f in c.fibers
  {
    With(WithPhase(c, e, Running(false)), f, Entered(c.fibers[f], e, owner))
  }

  /** The next number goes to an effect that registers no service, and it is published at once. */
  function PublishNext(c: Core, f: nat, owner: Option<nat>, kind: Kind): Core
    requires f in c.fibers
  {
    var e := c.bindingSeq + 1;
    Publish(c.(bindingSeq := e, store := c.store[e := Binding("", "", f, true, owner, kind)]), f, e, owner)
  }

  /** The entry is finished and leaves the fiber's list. */
  function Finished(c: Core, e: nat, f: nat): Core
    requires f in c.fibers
  {
    With(WithPhase(c, e, Done), f, c.fibers[f].(list := c.fibers[f].list - {e}))
  }

  function ProvideAt(fr: Frame, pv: ProvidePc): Option<Frame>
    requires fr.Provide?
  {
    Some(fr.(pv := pv))
  }

  function WithSnapshot(fib: Fiber, held: map<Name, nat>): Fiber {
    fib.(snapshot := Some(held))
  }

  function ExecProvide(c: Core, fr: Frame, ch: Choice): Out {
    if !Fits(c, fr) || !fr.Provide? then Stuck(c) else
    var fib := c.fibers[fr.f];
    match fr.pv
    case PvAlloc =>
      if fr.name == "" then Ran(c, None, None)
      else
        var b := Binding(fr.name, fr.at, fr.f, fr.available, fr.owner, Registration);
        Ran(c.(bindingSeq := c.bindingSeq + 1, store := c.store[c.bindingSeq + 1 := b]),
            ProvideAt(fr, PvGate(c.bindingSeq + 1)), None)
    case PvGate(e) =>
      Ran(c, if fib.disposed || fib.life.state == Unloading then None else ProvideAt(fr, PvEnter(e)), None)
    case PvEnter(e) =>
      if Accepts(c, fr.f, fr.owner) then Ran(Publish(c, fr.f, e, fr.owner), ProvideAt(fr, PvRegister(e)), None)
      else Ran(c, None, None)
    case PvRegister(e) =>
      if fr.at in c.bindings then Ran(c, ProvideAt(fr, PvAbort(e)), None)
      else Ran(c.(bindings := c.bindings[fr.at := e]), ProvideAt(fr, PvSnapshot(e)), None)
    case PvAbort(e) => Ran(Finished(c, e, fr.f), None, None)
    case PvSnapshot(e) =>
      Ran(if fib.snapshot.Some? then With(c, fr.f, WithSnapshot(fib, fib.snapshot.value[fr.name := e])) else c,
          ProvideAt(fr, PvNotify(e)), None)
    case PvNotify(e) =>
      Ran(c, ProvideAt(fr, PvInstall(e)), if fib.life.state == Active then Some(Notify(fr.name, fr.at)) else None)
    case PvInstall(e) =>
      if c.entries[e] == Running(true)
      then Ran(WithPhase(c, e, Releasing), Some(Disposer(e, FirstSection(c, e))), None)
      else Ran(WithPhase(c, e, Ready), None, None)
  }

  // ----- fiber.go: plain effects and their teardown -----

  /** A request left nothing to wait for: the entry is finished, or its body will see the request. */
  predicate Handled(phase: Phase) {
    phase == Done || phase == Running(true)
  }

  /** The children of `e` whose teardown is still to be requested or awaited. */
  function Unhandled(c: Core, e: nat): set<nat> {
    set k | k in c.entries && k in c.store && c.store[k].owner == Some(e) && !Handled(c.entries[k])
  }

  /** `unwindChildren` on one child, by an activation that goes on as `fr`: as for an entry of a cleared list. */
  function ReleaseChild(c: Core, fr: Frame, k: nat): Out {
    if k !in c.entries then Stuck(c) else
    match c.entries[k]
    case Running(_) => Ran(WithPhase(c, k, Running(true)), Some(fr), None)
    case Ready => Ran(WithPhase(c, k, Releasing), Some(fr), Some(Disposer(k, FirstSection(c, k))))
    case Releasing => Stuck(c)
    case Done => Stuck(c)
  }

  /** Unwinds the children of `e` and then finishes it. */
  function ExecUnwind(c: Core, fr: Frame, e: nat, f: nat, ch: Choice): Out {
    if f !in c.fibers then Stuck(c)
    else if Unhandled(c, e) == {} then Ran(Finished(c, e, f), None, None)
    else if ch.entry in Unhandled(c, e) then ReleaseChild(c, fr, ch.entry)
    else Stuck(c)
  }

  /** A plain effect. The body is arbitrary and may make more effects through its scope; when it returns its
      disposer is installed, or runs at once if a teardown was requested meanwhile; when it fails, what it
      made so far is unwound. */
  function ExecEffect(c: Core, fr: Frame, ch: Choice): Out {
    if !Fits(c, fr) || !fr.Effect? then Stuck(c) else
    match fr.fx
    case FxEnter =>
      if Accepts(c, fr.f, fr.owner)
      then Ran(PublishNext(c, fr.f, fr.owner, Scope), Some(fr.(fx := FxBody(c.bindingSeq + 1))), None)
      else Ran(c, None, None)
    case FxBody(e) =>
      if !ch.ok then Ran(c, Some(fr.(fx := FxAbandon(e))), None)
      else if c.entries[e] == Running(true)
      then Ran(WithPhase(c, e, Releasing), Some(Disposer(e, FirstSection(c, e))), None)
      else Ran(WithPhase(c, e, Ready), None, None)
    case FxAbandon(e) => ExecUnwind(c, fr, e, fr.f, ch)
  }

  /** A teardown request: deferred while the body runs, otherwise it starts a ready disposer. */
  function Requested(phase: Phase): Phase {
    match phase
    case Running(_) => Running(true)
    case Ready => Releasing
    case Releasing => Releasing
    case Done => Done
  }

  /** The disposer of an entry, under its shared once: a registration leaves the registry, a child fiber is
      disposed of, a plain disposer is arbitrary; then the children are unwound. `Release` is `runDisposer`
      called through the handle. */
  function ExecDisposer(c: Core, fr: Frame, ch: Choice): Out {
    if !Fits(c, fr) || !(fr.Disposer? || fr.Release?) then Stuck(c) else
    var b := c.store[fr.e];
    if fr.Release? then
      Ran(WithPhase(c, fr.e, Requested(c.entries[fr.e])),
          if c.entries[fr.e] == Ready then Some(Disposer(fr.e, FirstSection(c, fr.e))) else None, None)
    else
      match fr.un
      case UnRegister =>
        Ran(if b.at in c.bindings && c.bindings[b.at] == fr.e then c.(bindings := c.bindings - {b.at}) else c,
            Some(Disposer(fr.e, UnSnapshot)), Some(Notify(b.name, b.at)))
      case UnSnapshot =>
        assert BindingWf(c, fr.e, b);
        var fib := c.fibers[b.provider];
        Ran(if fib.snapshot.Some? then With(c, b.provider, WithSnapshot(fib, fib.snapshot.value - {b.name})) else c,
            Some(Disposer(fr.e, UnDone)), None)
      case UnChild =>
        Ran(c, Some(Disposer(fr.e, UnDone)),
            if b.kind.Child? && PublishedFiber(c, b.kind.f) then Some(Disposing(b.kind.f, DsMark)) else None)
      case UnDone => ExecUnwind(c, fr, fr.e, b.provider, ch)
  }

  // ----- registry.go: loading -----

  predicate InUse(rt: Runtime) {
    rt.claims != 0 || rt.fibers != {}
  }

  /** Drops a runtime from the registry once it has neither a claim nor a fiber. */
  function Sweep(c: Core, r: nat): Core
    requires r in c.rts
  {
    if InUse(c.rts[r]) then c else c.(runtimes := c.runtimes - {c.rts[r].def})
  }

  function RemoveFiber(c: Core, r: nat, f: nat): Core
    requires r in c.rts
  {
    Sweep(WithRuntime(c, r, c.rts[r].(fibers := c.rts[r].fibers - {f})), r)
  }

  /** `discardRuntime`. */
  function Discard(c: Core, r: nat): Core
    requires r in c.rts
  {
    Sweep(WithRuntime(c, r, c.rts[r].(claims := c.rts[r].claims - 1)), r)
  }

  const IDLE := Drive(false, false, false, 0, 0, 0, 0)

  /** `newFiber`. */
  function NewFiber(parent: nat, r: nat, inject: set<Name>, scope: map<Name, Label>): Fiber {
    Fiber(Fixed(false, Some(parent), r, inject, scope), Life(Pending, Inactive, false, 0, false), IDLE, false, None,
        false, false, {}, {}, {})
  }

  function LoadAt(fr: Frame, ld: LoadPc): Option<Frame>
    requires fr.Load?
  {
    Some(fr.(ld := ld))
  }

  /** One more `load` claims the runtime. */
  function ClaimMore(rt: Runtime): Runtime {
    rt.(claims := rt.claims + 1)
  }

  /** A new runtime for a definition that has none, claimed by the `load` that made it. */
  function NewRuntime(c: Core, def: nat): Core {
    var r := c.runtimeSeq + 1;
    c.(runtimeSeq := r, runtimes := c.runtimes[def := r], rts := c.rts[r := Runtime(def, {}, 1)])
  }

  /** `attachFiber`: the claim becomes a fiber, which is published. */
  function AttachFiber(c: Core, r: nat, f: nat): Core
    requires r in c.rts && f in c.fibers
  {
    var rt := c.rts[r];
    With(WithRuntime(c, r, rt.(fibers := rt.fibers + {f}, claims := rt.claims - 1)), f, c.fibers[f].(published := true))
  }

  function ExecLoad(c: Core, fr: Frame, ch: Choice): Out {
    if !Fits(c, fr) || !fr.Load? then Stuck(c) else
    var parent := c.fibers[fr.parent];
    match fr.ld
    case LdGate => Ran(c, if parent.disposed then None else LoadAt(fr, LdClaim), None)
    case LdClaim =>
      if fr.def in c.runtimes then
        var r := c.runtimes[fr.def];
        Ran(WithRuntime(c, r, ClaimMore(c.rts[r])), LoadAt(fr, LdNew(r)), None)
      else
        Ran(NewRuntime(c, fr.def), LoadAt(fr, LdNew(c.runtimeSeq + 1)), None)
    case LdNew(r) =>
      var f := c.counter + 1;
      Ran(With(c.(counter := f), f, NewFiber(fr.parent, r, fr.inject, fr.scope)), LoadAt(fr, LdEnter(r, f)), None)
    case LdEnter(r, f) =>
      if Accepts(c, fr.parent, fr.owner)
      then Ran(PublishNext(c, fr.parent, fr.owner, Child(f)), LoadAt(fr, LdAttach(r, f, c.bindingSeq + 1)), None)
      else Ran(c, LoadAt(fr, LdDiscard(r, f)), None)
    case LdAttach(r, f, e) =>
      Ran(AttachFiber(c, r, f), LoadAt(fr, LdInstall(r, f, e)), None)
    case LdInstall(r, f, e) =>
      if c.entries[e] == Running(true)
      then Ran(WithPhase(c, e, Releasing), LoadAt(fr, LdStart(r, f, e)), Some(Disposer(e, FirstSection(c, e))))
      else Ran(WithPhase(c, e, Ready), LoadAt(fr, LdStart(r, f, e)), None)
    case LdStart(r, f, e) =>
      Ran(c, Some(if c.fibers[f].disposed then Release(e) else Refresh(f)), None)
    case LdDiscard(r, f) => Ran(Discard(c, r), None, None)
  }

  // ----- the machine -----

  function Exec(c: Core, fr: Frame, ch: Choice): Out {
    if !Fits(c, fr) then Stuck(c) else
    match fr
    case Refresh(f) => ExecRefresh(c, f)
    case Driver(f, pc) => ExecDriver(c, f, pc, ch)
    case RootUnload(f, u) => ExecRootUnload(c, f, u, ch)
    case NotifyProvided(_) => ExecNotify(c, fr, ch)
    case NotifyNames(_, _) => ExecNotify(c, fr, ch)
    case Notify(_, _) => ExecNotify(c, fr, ch)
    case Wake(_) => ExecNotify(c, fr, ch)
    case Provide(_, _, _, _, _, _) => ExecProvide(c, fr, ch)
    case Effect(_, _, _) => ExecEffect(c, fr, ch)
    case Disposer(_, _) => ExecDisposer(c, fr, ch)
    case Release(_) => ExecDisposer(c, fr, ch)
    case Disposing(f, ds) => ExecDisposing(c, f, ds)
    case Restarting(f, update, rs) => ExecRestarting(c, f, update, rs)
    case Load(_, _, _, _, _, _) => ExecLoad(c, fr, ch)
  }

  /** A section of `fr` is possible in `c`, and `ch` resolves it. */
  predicate Executes(c: Core, fr: Frame, ch: Choice) {
    Fits(c, fr) && Exec(c, fr, ch).Ran?
  }

  /** The pool after activation `t` ran: it continues or ends, and may have started another one. */
  function NewPool(s: Sys, t: nat, cont: Option<Frame>, call: Option<Frame>): map<nat, Frame> {
    var kept := if cont.Some? then s.pool[t := cont.value] else s.pool - {t};
    if call.Some? then kept[s.next := call.value] else kept
  }

  function After(s: Sys, t: nat, out: Out): Sys
  {
    Sys(out.core, NewPool(s, t, out.cont, out.call), s.next + 1)
  }

  /** What any goroutine may call at any time: the public entry points, on a published fiber, through its own
      context or a scope; and the handle of an effect whose body has returned. `Set` notifies an arbitrary scope. */
  predicate EntryPoint(c: Core, fr: Frame) {
    match fr
    case Provide(f, _, _, owner, _, pv) => PublishedFiber(c, f) && OwnerWf(c, f, owner) && pv == PvAlloc
    case Effect(f, owner, fx) => PublishedFiber(c, f) && OwnerWf(c, f, owner) && fx == FxEnter
    case Release(e) => e in c.entries && e in c.store && !c.entries[e].Running?
    case Disposing(f, ds) => PublishedFiber(c, f) && ds == DsMark
    case Restarting(f, _, rs) => PublishedFiber(c, f) && rs == RsGate
    case Load(parent, owner, _, _, _, ld) => PublishedFiber(c, parent) && OwnerWf(c, parent, owner) && ld == LdGate
    case Notify(_, _) => true
    case _ => false
  }

  ghost predicate Steps(s: Sys, t: nat, ch: Choice, s': Sys) {
    && t in s.pool && Executes(s.core, s.pool[t], ch)
    && s' == After(s, t, Exec(s.core, s.pool[t], ch))
  }

  ghost predicate Calls(s: Sys, fr: Frame, s': Sys) {
    EntryPoint(s.core, fr) && s' == s.(pool := s.pool[s.next := fr], next := s.next + 1)
  }

  ghost predicate Next(s: Sys, s': Sys) {
    (exists t, ch :: Steps(s, t, ch, s')) || (exists fr :: Calls(s, fr, s'))
  }

  function RootFiber(): Fiber {
    Fiber(Fixed(true, None, 0, {}, map[]), Life(Active, Gen(map[]), true, 0, true), IDLE, false, Some(map[]), false,
        true, {}, {}, {})
  }

  predicate Init(s: Sys) {
    s == Sys(Core(map[0 := RootFiber()], map[], map[], map[], map[], map[], 0, 0, 0), map[], 0)
  }

  /** The `i`-th move of a run: a step of one activation, or a call. */
  ghost predicate Move(tr: seq<Sys>, i: int) {
    0 <= i < |tr| - 1 && Next(tr[i], tr[i + 1])
  }

  ghost predicate Run(tr: seq<Sys>) {
    |tr| > 0 && Init(tr[0]) && forall i :: 0 <= i < |tr| - 1 ==> Move(tr, i)
  }

  /** No activation is in flight: no busy fiber, no outstanding request or notification. */
  predicate Quiet(s: Sys) {
    s.pool == map[]
  }
}
