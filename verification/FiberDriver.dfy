/** The transition driver of one fiber in the form the source has it (fiber.go): an object whose lock-guarded
    fields are written in place, with other callers let in wherever the lock is not held. A pass reconciles the
    fiber with the registry, and a drive leaves nothing to reconcile. */
module FiberDriver {
  import opened Options
  import opened Reactive
  import opened ReactiveQuiescence
  import opened ReactiveLifecycle

  /** What other activations do between two sections of the driver: nothing, a refresh of the busy fiber, the
      first section of Restart or Update, the mark of Dispose, or a change of what the registry holds. */
  datatype Arrival = Nothing | Refreshes | Forces(update: bool) | Disposes | Changes(core: Core)

  /** How a plugin body ends, and the effects it listed. */
  datatype BodyRun = BadConfig | Returns(effects: seq<nat>) | Fails(effects: seq<nat>)

  /** What the driver alone writes. `log` lists the entries torn down so far; `bodies` are the outcomes of the
      bodies still to be run, and none means success. */
  datatype Part = Part(
    state: State,
    epoch: Epoch,
    live: bool,
    snapshot: Option<map<Name, nat>>,
    list: seq<nat>,
    log: seq<nat>,
    bodies: seq<BodyRun>)

  function Reverse(s: seq<nat>): (r: seq<nat>)
    ensures |r| == |s| && forall i :: 0 <= i < |s| ==> r[i] == s[|s| - 1 - i]
  {
    if s == [] then [] else Reverse(s[1..]) + [s[0]]
  }

  // ----- what a pass amounts to -----

  /** A live generation is torn down newest first; where none is live nothing happens. */
  function Unloaded(p: Part): Part {
    if p.live then p.(state := Pending, live := false, snapshot := None, list := [], log := p.log + Reverse(p.list))
        else p
  }

  function NextBody(bodies: seq<BodyRun>): BodyRun {
    if bodies == [] then Returns([]) else bodies[0]
  }

  function Rest(bodies: seq<BodyRun>): seq<BodyRun> {
    if bodies == [] then [] else bodies[1..]
  }

  /** A generation whose body failed is torn down with all it listed. */
  function FailedLoad(p: Part, keys: map<Name, Key>, effects: seq<nat>): Part {
    p.(state := Failed, epoch := Gen(keys), live := false, snapshot := None, list := [],
       log := p.log + Reverse(p.list + effects), bodies := Rest(p.bodies))
  }

  /** The next body runs against `got`. */
  function LoadedWith(p: Part, got: map<Name, nat>, keys: map<Name, Key>): Part {
    match NextBody(p.bodies)
    case BadConfig => FailedLoad(p, keys, [])
    case Fails(effects) => FailedLoad(p, keys, effects)
    case Returns(effects) =>
      p.(state := Active, epoch := Gen(keys), live := true, snapshot := Some(got), list := p.list + effects,
          bodies := Rest(p.bodies))
  }

  /** What the registry has for every injected name. */
  datatype Target = Absent | Found(got: map<Name, nat>, keys: map<Name, Key>)

  function EpochOf(t: Target): Epoch {
    match t
    case Absent => Inactive
    case Found(_, keys) => Gen(keys)
  }

  /** A pass of a fiber nobody disposed of: the standing generation goes unless it is the one wanted and no
      reload is forced, and the wanted one is loaded. */
  function Reconciled(p: Part, forced: bool, t: Target): Part {
    if !forced && p.epoch == EpochOf(t) then p
    else
      var q := Unloaded(p).(epoch := Inactive);
      match t
      case Absent => q
      case Found(got, keys) => LoadedWith(q, got, keys)
  }

  /** A second pass against the same registry does nothing. */
  lemma ReconciledTwice(p: Part, forced: bool, t: Target)
    ensures Reconciled(p, forced, t).epoch == EpochOf(t)
    ensures Reconciled(Reconciled(p, forced, t), false, t) == Reconciled(p, forced, t)
  {}

  /** What was torn down and what is listed. */
  function Kept(p: Part): multiset<nat> {
    multiset(p.log) + multiset(p.list)
  }

  lemma UnloadedKeeps(p: Part)
    ensures Kept(Unloaded(p)) == Kept(p)
  {
    ReverseSame(p.list);
    assert multiset(p.log + Reverse(p.list)) == multiset(p.log) + multiset(Reverse(p.list));
  }

  lemma FailedKeeps(p: Part, keys: map<Name, Key>, effects: seq<nat>)
    ensures Kept(FailedLoad(p, keys, effects)) == Kept(p) + multiset(effects)
  {
    ReverseSame(p.list + effects);
    assert multiset(p.list + effects) == multiset(p.list) + multiset(effects);
    assert multiset(p.log + Reverse(p.list + effects)) == multiset(p.log) + multiset(Reverse(p.list + effects));
  }

  /** No entry is lost or torn down twice: what is torn down or listed after a pass is what was before, and what
      the body listed. */
  lemma ReconciledConserves(p: Part, forced: bool, t: Target)
    ensures Kept(Reconciled(p, forced, t)) == Kept(p) + multiset(Listed(p, forced, t))
  {
    hide Kept, Unloaded, FailedLoad;
    if forced || p.epoch != EpochOf(t) {
      UnloadedKeeps(p);
      var q := Unloaded(p).(epoch := Inactive);
      SameKept(Unloaded(p), q);
      UnloadedBodies(p);
      if t.Found? {
        match NextBody(p.bodies)
        case BadConfig => FailedKeeps(q, t.keys, []);
        case Fails(effects) => FailedKeeps(q, t.keys, effects);
        case Returns(effects) => ReturnedKeeps(q, LoadedWith(q, t.got, t.keys), effects);
      }
    }
  }

  lemma SameKept(p: Part, q: Part)
    requires q.log == p.log && q.list == p.list
    ensures Kept(q) == Kept(p)
  {}

  lemma UnloadedBodies(p: Part)
    ensures Unloaded(p).bodies == p.bodies
  {}

  lemma ReturnedKeeps(p: Part, q: Part, effects: seq<nat>)
    requires q.log == p.log && q.list == p.list + effects
    ensures Kept(q) == Kept(p) + multiset(effects)
  {
    assert multiset(p.list + effects) == multiset(p.list) + multiset(effects);
  }

  function Listed(p: Part, forced: bool, t: Target): seq<nat> {
    if (!forced && p.epoch == EpochOf(t)) || t.Absent? || NextBody(p.bodies).BadConfig? then []
        else NextBody(p.bodies).effects
  }

  lemma {:induction false} ReverseSame(s: seq<nat>)
    ensures multiset(Reverse(s)) == multiset(s)
  {
    if s != [] {
      ReverseSame(s[1..]);
      assert s == [s[0]] + s[1..];
    }
  }

  /** A fiber of which only what is fixed matters. */
  function Bare(fixed: Fixed): Fiber {
    Fiber(fixed, Life(Pending, Inactive, false, 0, false), IDLE, false, None, false, true, {}, {}, {})
  }

  /** What the registry `c` gives a fiber for one name. */
  function Given(c: Core, fixed: Fixed, name: Name): Option<nat> {
    Current(c, Bare(fixed), name)
  }

  /** The target is what the registry gives. */
  ghost predicate Wanted(c: Core, fixed: Fixed, t: Target) {
    match t
    case Absent => exists n :: n in fixed.inject && Given(c, fixed, n).None?
    case Found(got, keys) =>
      && got.Keys == fixed.inject && keys.Keys == fixed.inject
      && forall n :: n in got ==> Given(c, fixed, n) == Some(got[n]) && got[n] in c.store && keys[n] == KeyOf(c, got[n])
  }

  /** It gives one answer. */
  lemma OneTarget(c: Core, fixed: Fixed, a: Target, b: Target)
    requires Wanted(c, fixed, a) && Wanted(c, fixed, b)
    ensures a == b
  {
    if a.Found? && b.Found? {
      assert a.got == b.got && a.keys == b.keys;
    }
  }

  /** A fiber that records the wanted epoch is settled, in the sense of the step machine. */
  lemma WantedSettled(c: Core, fib: Fiber, t: Target)
    requires Wanted(c, fib.fixed, t) && fib.life.epoch == EpochOf(t)
    ensures Settled(c, fib)
  {
    match t
    case Absent =>
      var n :| n in fib.fixed.inject && Given(c, fib.fixed, n).None?;
      assert Missing(c, fib, n);
    case Found(got, keys) =>
      forall n | n in fib.fixed.inject ensures Current(c, fib, n) == Some(got[n]) {
        assert Given(c, fib.fixed, n) == Some(got[n]);
      }
  }

  // ----- the fiber -----

  class FiberCell {
    const fixed: Fixed
    /** `Inject`: the injected names in their order. */
    const names: seq<Name>

    var state: State
    var epoch: Epoch
    var live: bool
    var err: bool
    var busy: bool
    var dirty: bool
    var forceReload: bool
    var disposed: bool
    var snapshot: Option<map<Name, nat>>
    var list: seq<nat>
    var log: seq<nat>
    var bodies: seq<BodyRun>

    /** The rest of the application, as this fiber's lookups find it, and what will happen to it and to the marks. */
    var core: Core
    var arrivals: seq<Arrival>

    /** History: a body started that is not yet unwound; the registry changed and the refresh that announces it
        is still to come; the number of changes. */
    ghost var started: bool
    ghost var owed: bool
    ghost var changes: nat

    ghost function Now(): Fiber
      reads this
    {
      Fiber(fixed, Life(state, epoch, live, 0, started),
          IDLE.(busy := busy, dirty := dirty, forceReload := forceReload),
            err, snapshot, disposed, true, set e | e in list, {}, {})
    }

    ghost function Mine(): Part
      reads this
    {
      Part(state, epoch, live, snapshot, list, log, bodies)
    }

    ghost predicate Valid()
      reads this
    {
      && !fixed.root && (forall n :: n in names <==> n in fixed.inject)
      && (forall i, j :: 0 <= i < j < |names| ==> names[i] != names[j])
    }

    constructor (parent: nat, r: nat, names: seq<Name>, scope: map<Name, Label>, c: Core, bodies: seq<BodyRun>,
        arrivals: seq<Arrival>)
      requires forall i, j :: 0 <= i < j < |names| ==> names[i] != names[j]
      ensures Valid() && AtRest(Now()) && !busy && !disposed && core == c && this.arrivals == arrivals
      ensures this.bodies == bodies
      ensures Now() == NewFiber(parent, r, (set n | n in names), scope).(published := true)
    {
      fixed := Fixed(false, Some(parent), r, (set n | n in names), scope);
      this.names := names;
      state, epoch, live, err := Pending, Inactive, false, false;
      busy, dirty, forceReload, disposed := false, false, false, false;
      snapshot, list, log := None, [], [];
      core, this.bodies, this.arrivals := c, bodies, arrivals;
      started, owed, changes := false, false, 0;
    }

    // ----- other callers -----

    /** What may have happened since: marks only accumulate, a mark or a change leaves fewer than `n` arrivals,
        and a change leaves a mark or is still to be announced. */
    twostate predicate Yields(n: nat)
      reads this
    {
      && (old(disposed) ==> disposed) && (old(dirty) ==> dirty)
      && |arrivals| <= |old(arrivals)| && old(changes) <= changes
      && (dirty != old(dirty) || changes != old(changes) ==> |arrivals| < n)
      && (!dirty ==> disposed == old(disposed))
      && (changes == old(changes) ==> core == old(core))
      && (!dirty && !owed ==> changes == old(changes) && !old(owed))
      && busy == old(busy)
    }

    twostate predicate Waits()
      reads this
    {
      Yields(|old(arrivals)|) && (err ==> old(err))
    }

    /** The lock is not held: whatever is due arrives. */
    method Preempt()
      requires busy
      modifies this
      ensures Waits() && Mine() == old(Mine()) && started == old(started)
      ensures forceReload == old(forceReload) || (forceReload && |arrivals| < |old(arrivals)|)
    {
      if arrivals == [] { return; }
      var arrival := arrivals[0];
      arrivals := arrivals[1..];
      match arrival
      case Nothing =>
      case Refreshes =>
        dirty := true;
        owed := false;
      case Forces(update) =>
        forceReload := true;
        if update { err := false; }
      case Disposes =>
        if !disposed { disposed, dirty := true, true; }
      case Changes(c) =>
        core := c;
        owed := true;
        changes := changes + 1;
    }

    /** `setState`: a disposed fiber accepts only unloading and disposed. */
    method SetStateTo(st: State) returns (ok: bool)
      modifies this`state
      ensures ok == !(disposed && st != Unloading && st != State.Disposed)
      ensures state == if ok then st else old(state)
    {
      if disposed && st != Unloading && st != State.Disposed { return false; }
      state := st;
      ok := true;
    }

    // ----- unload -----

    /** The walk over the cleared list. */
    method TearDown(entries: seq<nat>)
      requires busy
      modifies this
      ensures Waits() && started == old(started) && Mine() == old(Mine()).(log := old(log) + Reverse(entries))
    {
      var i := |entries|;
      assert entries[i..] == [];
      while i > 0
        invariant 0 <= i <= |entries| && Waits() && started == old(started)
        invariant Mine() == old(Mine()).(log := old(log) + Reverse(entries[i..]))
      {
        i := i - 1;
        log := log + [entries[i]];
        TornOne(old(log), entries, i);
        Preempt();
      }
      assert entries[0..] == entries;
    }

    /** Its last sections: the snapshot goes, and the fiber is pending again or final. */
    method Conclude()
      requires busy && !live && state == Unloading
      modifies this
      ensures Waits() && !started
      ensures Mine() == old(Mine()).(snapshot := None, state := state)
      ensures !disposed ==> state == Pending
      ensures old(disposed) ==> state == State.Disposed
      ensures state in {Pending, Unloading, State.Disposed} && (state == State.Disposed ==> disposed)
    {
      snapshot, started := None, false;
      var final := disposed;
      Preempt();
      if final {
        var _ := SetStateTo(State.Disposed);
      } else {
        var _ := SetStateTo(Pending);
      }
    }

    /** The claim of a live generation, up to the cleared list. */
    method Release()
      requires busy && live
      modifies this
      ensures Waits() && !live && state == Unloading
      ensures Mine() == old(Mine()).(live := false, state := Unloading, list := [],
        log := old(log) + Reverse(old(list)))
    {
      live := false;
      Preempt();
      var _ := SetStateTo(Unloading);
      Preempt();
      var entries := list;
      list := [];
      TearDown(entries);
    }

    /** `unload`: a live generation is claimed, its effects are torn down newest first, and its snapshot goes; a
        disposed fiber is brought to its final state. */
    method Unload()
      requires busy && (!live ==> Clean(Now()))
      modifies this
      ensures Waits() && Clean(Now())
      ensures Mine() == Unloaded(old(Mine())).(state := state)
      ensures !disposed ==> state == Unloaded(old(Mine())).state
      ensures old(disposed) ==> state == State.Disposed
      ensures disposed ==> state in {Unloaded(old(Mine())).state, Unloading, State.Disposed}
    {
      if !live {
        if disposed { var _ := SetStateTo(State.Disposed); }
        return;
      }
      Release();
      Conclude();
    }

    // ----- resolving -----

    /** `resolveInjections`: bindings and epoch come from the same walk, and the first name that does not resolve
        ends it. */
    method ResolveInjections() returns (t: Target)
      requires busy && Valid()
      modifies this
      ensures Waits() && Mine() == old(Mine()) && started == old(started)
      ensures t.Found? ==> t.got.Keys == fixed.inject && t.keys.Keys == fixed.inject
      ensures changes == old(changes) ==> Wanted(core, fixed, t)
    {
      var got: map<Name, nat>, keys: map<Name, Key> := map[], map[];
      for i := 0 to |names|
        invariant Waits() && Mine() == old(Mine()) && started == old(started)
        invariant got.Keys == keys.Keys == set n | n in names[..i]
        invariant changes == old(changes) ==>
          forall n :: n in got ==>
              Given(core, fixed, n) == Some(got[n]) && got[n] in core.store && keys[n] == KeyOf(core, got[n])
      {
        var at := if names[i] in fixed.scope then fixed.scope[names[i]] else names[i];
        var found := Lookup(core, at, names[i]);
        assert found == Given(core, fixed, names[i]);
        if found.None? { return Absent; }
        got, keys := got[names[i] := found.value], keys[names[i] := KeyOf(core, found.value)];
        assert names[..i + 1] == names[..i] + [names[i]];
        Preempt();
      }
      assert names[..|names|] == names;
      t := Found(got, keys);
    }

    // ----- loading -----

    /** What was resolved when the registry had changed `k` times, and the driver acts on now. */
    ghost predicate Acts(t: Target, k: nat, n: nat)
      reads this
    {
      && Valid() && busy && t.Found? && t.got.Keys == fixed.inject && t.keys.Keys == fixed.inject
      && (changes == k ==> Wanted(core, fixed, t)) && k <= changes && |arrivals| <= n
          && (changes != k ==> |arrivals| < n)
    }

    /** A load that found a dead provider gives its claim back and asks for another pass. */
    method GiveBack(ghost n: nat)
      requires busy && state == Loading && !started && snapshot.None? && |arrivals| < n
      modifies this
      ensures Yields(n) && dirty && AtRest(Now())
    {
      live := false;
      epoch := Inactive;
      Preempt();
      var _ := SetStateTo(Pending);
      Preempt();
      dirty := true;
    }

    /** The liveness check before the body. */
    method AllLive(t: Target, ghost k: nat, ghost n: nat) returns (ok: bool)
      requires Acts(t, k, n)
      modifies this
      ensures Waits() && Mine() == old(Mine()) && started == old(started) && Acts(t, k, n)
      ensures !ok ==> changes != k
    {
      for i := 0 to |names|
        invariant Waits() && Mine() == old(Mine()) && started == old(started) && Acts(t, k, n)
      {
        if !Live(core, t.got[names[i]]) {
          return false;
        }
        Preempt();
      }
      ok := true;
    }

    /** The plugin body, or its configuration, decides; what it listed is listed even if it fails. */
    method RunBody() returns (run: BodyRun)
      requires busy
      modifies this
      ensures Waits() && run == NextBody(old(bodies)) && (started <==> old(started) || !run.BadConfig?)
      ensures Mine() == old(Mine()).(bodies := Rest(old(bodies)), list := if run.BadConfig? then old(list)
        else old(list) + run.effects)
    {
      run := NextBody(bodies);
      bodies := Rest(bodies);
      if !run.BadConfig? {
        started := true;
        list := list + run.effects;
      }
      Preempt();
    }

    /** `fail`: a failed load leaks nothing it managed to list. */
    method Fail()
      requires busy && live && state == Loading && epoch.Gen?
      modifies this
      ensures Yields(|old(arrivals)|) && AtRest(Now()) && Clean(Now())
      ensures !disposed ==> Mine() == Unloaded(old(Mine())).(state := Failed)
    {
      Unload();
      err := true;
      var final := disposed;
      Preempt();
      if !final { var _ := SetStateTo(Failed); }
    }

    /** The end of a load whose body returned: a fiber disposed of meanwhile unloads instead. */
    method Finish()
      requires busy && live && state == Loading && started && snapshot.Some? && epoch.Gen?
      modifies this
      ensures Yields(|old(arrivals)|) && AtRest(Now())
      ensures !disposed ==> Mine() == old(Mine()).(state := Active)
    {
      if disposed {
        Unload();
        return;
      }
      err := false;
      Preempt();
      var _ := SetStateTo(Active);
      Preempt();
    }

    /** The commit of the resolved generation, and its body. */
    method Commit(t: Target)
      requires busy && live && !started && state == Loading && t.Found?
      modifies this
      ensures Yields(|old(arrivals)|) && AtRest(Now())
      ensures !disposed ==> Mine() == LoadedWith(old(Mine()), t.got, t.keys)
    {
      epoch, snapshot := Gen(t.keys), Some(t.got);
      Preempt();
      var run := RunBody();
      if run.Returns? { Finish(); } else { Fail(); }
    }

    /** The first sections of `load`: the generation is claimed, unless the fiber is disposed of meanwhile. */
    method Claim() returns (loading: bool)
      requires busy && AtRest(Now()) && !live && !disposed
      modifies this
      ensures Waits() && live && !started && snapshot.None?
      ensures loading ==> Mine() == old(Mine()).(live := true, state := Loading)
      ensures !loading ==> disposed && AtRest(Now())
    {
      live := true;
      Preempt();
      loading := SetStateTo(Loading);
      if loading { Preempt(); }
    }

    /** `load` on a fiber without a generation. */
    method Load(t: Target, ghost k: nat, ghost n: nat)
      requires Acts(t, k, n) && AtRest(Now()) && !live
      modifies this
      ensures Yields(n) && AtRest(Now())
      ensures !disposed && !dirty && changes == k ==> Mine() == LoadedWith(old(Mine()), t.got, t.keys)
    {
      if disposed { return; }
      var loading := Claim();
      if !loading { return; }
      var ok := AllLive(t, k, n);
      if ok { Commit(t); } else { GiveBack(n); }
    }

    // ----- one pass -----

    /** `reload`: the old generation goes and is forgotten before the new one is resolved. */
    method Reload(ghost n: nat) returns (t: Target)
      requires busy && Valid() && AtRest(Now()) && |arrivals| <= n
      modifies this
      ensures Yields(n) && AtRest(Now())
      ensures !disposed && !dirty && changes == old(changes) ==>
        Wanted(core, fixed, t) && Mine() == Reconciled(old(Mine()), true, t)
    {
      Unload();
      if disposed { return Absent; }
      epoch := Inactive;
      err := false;
      Preempt();
      ghost var k := changes;
      t := ResolveInjections();
      if t.Found? { Load(t, k, n); }
    }

    /** `applyUnload`. */
    method ApplyUnload()
      requires busy && AtRest(Now())
      modifies this
      ensures Waits() && AtRest(Now())
      ensures !disposed ==> Mine() == Unloaded(old(Mine())).(epoch := Inactive)
    {
      if disposed { return; }
      epoch := Inactive;
      Preempt();
      Unload();
    }

    /** `sync`: disposal wins over a forced reload, and that over what the registry gives. Undisturbed, a pass
        reconciles the fiber with the registry. */
    method Sync(ghost n: nat) returns (t: Target)
      requires busy && Valid() && AtRest(Now()) && |arrivals| <= n
      modifies this
      ensures Yields(n) && AtRest(Now())
      ensures !disposed && !dirty && changes == old(changes) ==>
        Wanted(core, fixed, t) && Mine() == Reconciled(old(Mine()), old(forceReload), t)
      ensures old(disposed) ==> Mine() == Unloaded(old(Mine())).(state := State.Disposed)
    {
      var final, force := disposed, forceReload;
      forceReload := false;
      Preempt();
      if final {
        Unload();
        return Absent;
      }
      if force {
        t := Reload(n);
        return;
      }
      ghost var k := changes;
      t := ResolveInjections();
      t := Decide(t, k, n);
    }

    /** The decision of `sync`, for what it resolved when the registry had changed `k` times. */
    method Decide(first: Target, ghost k: nat, ghost n: nat) returns (t: Target)
      requires busy && Valid() && AtRest(Now()) && |arrivals| <= n && k <= changes
      requires (changes != k ==> |arrivals| < n)
      requires first.Found? ==> first.got.Keys == fixed.inject && first.keys.Keys == fixed.inject
      requires changes == k ==> Wanted(core, fixed, first)
      modifies this
      ensures Yields(n) && AtRest(Now())
      ensures !disposed && !dirty && changes == k ==>
        Wanted(core, fixed, t) && Mine() == Reconciled(old(Mine()), false, t)
    {
      t := first;
      var same, standing := EpochOf(t) == epoch, live;
      Preempt();
      if same { return; }
      if t.Absent? { ApplyUnload(); }
      else if standing {
        t := Reload(n);
        if changes == k && Wanted(core, fixed, t) { OneTarget(core, fixed, first, t); }
      }
      else { Load(t, k, n); }
    }

    // ----- the drive -----

    /** One turn of the loop of `drive`. */
    method Pass() returns (ghost t: Target)
      requires busy && Valid() && AtRest(Now())
      modifies this
      ensures busy && AtRest(Now()) && (old(disposed) ==> disposed)
      ensures |arrivals| <= |old(arrivals)| && (dirty ==> |arrivals| < |old(arrivals)|)
      ensures disposed && !dirty ==> Clean(Now()) && state == State.Disposed
      ensures old(disposed) ==> Mine() == Unloaded(old(Mine())).(state := State.Disposed)
      ensures !disposed && !owed && !dirty ==> Settled(core, Now())
      ensures old(arrivals) == [] && !old(disposed) ==>
        Wanted(core, fixed, t) && Mine() == Reconciled(old(Mine()), old(forceReload), t)
    {
      hide Unloaded, Reconciled, Settled, Wanted;
      ghost var n := |arrivals|;
      dirty := false;
      Preempt();
      ghost var before, forced, last := Mine(), forceReload, changes;
      t := Sync(n);
      if !disposed && !dirty && changes == last {
        ReconciledTwice(before, forced, t);
        WantedSettled(core, Now(), t);
      }
    }

    /** `drive`: passes until nobody asked for another one. There is at most one more than arrivals were used up;
        a fiber that was disposed of ends in its final state, and any other has nothing left to reconcile but a
        change whose announcement is still to come. Undisturbed, the drive is one pass. */
    method Drive() returns (ghost t: Target, ghost passes: nat)
      requires busy && Valid() && AtRest(Now())
      modifies this
      ensures !busy && !dirty && AtRest(Now()) && (old(disposed) ==> disposed)
      ensures 1 <= passes && passes + |arrivals| <= |old(arrivals)| + 1
      ensures disposed ==> Clean(Now()) && state == State.Disposed
      ensures old(disposed) ==> Mine() == Unloaded(old(Mine())).(state := State.Disposed)
      ensures !disposed && !owed ==> Settled(core, Now())
      ensures old(arrivals) == [] && !old(disposed) ==>
        Wanted(core, fixed, t) && Mine() == Reconciled(old(Mine()), old(forceReload), t)
    {
      hide Unloaded, Reconciled, Settled, Wanted;
      passes := 0;
      while true
        invariant busy && AtRest(Now()) && (old(disposed) ==> disposed) && passes + |arrivals| <= |old(arrivals)|
        invariant passes == 0 ==>
          Mine() == old(Mine()) && forceReload == old(forceReload) && arrivals == old(arrivals)
              && disposed == old(disposed)
        invariant passes > 0 && old(disposed) ==> Mine() == Unloaded(old(Mine())).(state := State.Disposed)
        decreases |arrivals|
      {
        t := Pass();
        passes := passes + 1;
        UnloadedTwice(old(Mine()));
        if !dirty {
          ghost var was := Now();
          busy := false;
          if !disposed && !owed { SettledSame(core, was, Now()); }
          return;
        }
      }
    }

    // ----- requests -----

    /** `beginTransition`: the request becomes a pass of this caller, or marks the running one for another pass. */
    method BeginTransition() returns (owner: bool)
      modifies this`busy, this`dirty
      ensures busy && owner == !old(busy) && dirty == (old(dirty) || old(busy))
    {
      if busy {
        dirty := true;
        return false;
      }
      busy := true;
      owner := true;
    }

    /** `refresh` of an idle fiber, which is also how a change of the registry is announced to it. */
    method Refresh() returns (ghost t: Target)
      requires Valid() && !busy && AtRest(Now())
      modifies this
      ensures !busy && !dirty && AtRest(Now()) && (old(disposed) ==> disposed)
      ensures disposed ==> Clean(Now()) && state == State.Disposed
      ensures old(disposed) ==> Mine() == Unloaded(old(Mine())).(state := State.Disposed)
      ensures !disposed && !owed ==> Settled(core, Now())
      ensures old(arrivals) == [] && !old(disposed) ==>
        Wanted(core, fixed, t) && Mine() == Reconciled(old(Mine()), old(forceReload), t)
    {
      hide Unloaded, Reconciled, Settled, Wanted;
      var owner := BeginTransition();
      owed := false;
      ghost var passes;
      t, passes := Drive();
    }

    /** `Restart` and `Update` of an idle fiber: refused once it is disposed of; otherwise the standing generation
        goes even if it is the one wanted. */
    method Restart(update: bool) returns (ok: bool, ghost t: Target)
      requires Valid() && !busy && AtRest(Now())
      modifies this
      ensures ok == !old(disposed) && !busy && AtRest(Now())
      ensures !ok ==> Mine() == old(Mine())
      ensures ok && !disposed && !owed ==> Settled(core, Now())
      ensures ok && old(arrivals) == [] ==> Wanted(core, fixed, t) && Mine() == Reconciled(old(Mine()), true, t)
    {
      hide Reconciled, Settled, Wanted;
      if disposed { return false, Absent; }
      forceReload := true;
      if update { err := false; }
      t := Refresh();
      ok := true;
    }

    /** `Dispose` of an idle fiber: a live generation is torn down; where none is live, whatever the fiber lists
        stays listed. */
    method Dispose() returns (first: bool)
      requires Valid() && !busy && AtRest(Now())
      modifies this
      ensures first == !old(disposed) && disposed && (!first ==> Mine() == old(Mine()))
      ensures first ==> !busy && Mine() == Unloaded(old(Mine())).(state := State.Disposed)
      ensures first ==> (list == [] <==> old(live) || old(list) == [])
    {
      if disposed { return false; }
      disposed, dirty := true, true;
      ghost var t := Refresh();
      first := true;
    }
  }

  lemma UnloadedTwice(p: Part)
    ensures var q := Unloaded(p).(state := State.Disposed); Unloaded(q).(state := State.Disposed) == q
  {}

  lemma TornOne(log: seq<nat>, entries: seq<nat>, i: nat)
    requires i < |entries|
    ensures log + Reverse(entries[i + 1..]) + [entries[i]] == log + Reverse(entries[i..])
  {
    assert entries[i..][1..] == entries[i + 1..] && entries[i..][0] == entries[i];
  }
}
