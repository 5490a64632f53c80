/** Once-listeners (events.go: on, claim, invoke, releaseOnce) as a step machine: one registration and any
    number of dispatchers holding snapshots taken before the listener left the bus. Every atomic operation
    and every critical section is one step. */
module OnceListeners {

  /** The listener. `onBus` and `listed` say whether the bus and the owner's effect list still hold it. From
      `added` on the fields are history: registered at all, how often the body ran, cleanup run. */
  datatype Listener = Listener(
    once: bool,
    fired: bool,
    released: bool,
    cleanup: bool,
    onBus: bool,
    listed: bool,
    added: bool,
    bodies: nat,
    cleaned: bool)

  /** Where the registration is. */
  datatype Reg = RAdd | RStore | RCheck | RCleanup | RDone

  /** Where a dispatcher is; HDispose is a call of the returned disposer. */
  datatype Pc = DClaim | DBody | DRelease | DRemove | DLoad | DCleanup | HDispose

  datatype Sys = Sys(lis: Listener, reg: Reg, pool: map<nat, Pc>, next: nat)

  /** The disposer: it takes the listener off the bus and its entry off the effect list. */
  function Clean(l: Listener): Listener {
    l.(onBus := false, listed := false, cleaned := true)
  }

  function Register(l: Listener, reg: Reg): (Listener, Reg) {
    match reg
    case RAdd => (l.(onBus := true, listed := true, added := true), RStore)
    case RStore => (l.(cleanup := true), RCheck)
    case RCheck => (l, if l.once && l.released then RCleanup else RDone)
    case RCleanup => (Clean(l), RDone)
    case RDone => (l, RDone)
  }

  /** A dispatcher's next state; no program counter when it is through with the listener. */
  function Dispatch(l: Listener, pc: Pc): (Listener, seq<Pc>) {
    match pc
    case DClaim =>
      if !l.once then (l, [DBody]) else if l.fired then (l, []) else (l.(fired := true), [DBody])
    case DBody => (l.(bodies := l.bodies + 1), if l.once then [DRelease] else [])
    case DRelease => if l.released then (l, []) else (l.(released := true), [DRemove])
    case DRemove => (l.(onBus := false), [DLoad])
    case DLoad => (l, if l.cleanup then [DCleanup] else [])
    case DCleanup => (Clean(l), [])
    case HDispose => (Clean(l), [])
  }

  ghost predicate Steps(s: Sys, t: nat, s': Sys) {
    && t in s.pool
    && var (l, pcs) := Dispatch(s.lis, s.pool[t]);
      s' == s.(lis := l, pool := if pcs == [] then s.pool - {t} else s.pool[t := pcs[0]])
  }

  ghost predicate Registers(s: Sys, s': Sys) {
    s.reg != RDone && var (l, reg) := Register(s.lis, s.reg); s' == s.(lis := l, reg := reg)
  }

  /** A dispatcher holds the listener in a snapshot taken after it was added, however long ago; the disposer
      is returned when the registration is done. */
  ghost predicate Calls(s: Sys, pc: Pc, s': Sys) {
    && ((pc == DClaim && s.lis.added) || (pc == HDispose && s.reg == RDone))
    && s' == s.(pool := s.pool[s.next := pc], next := s.next + 1)
  }

  ghost predicate Next(s: Sys, s': Sys) {
    (exists t :: Steps(s, t, s')) || Registers(s, s') || (exists pc :: Calls(s, pc, s'))
  }

  predicate Init(s: Sys) {
    s == Sys(Listener(s.lis.once, false, false, false, false, false, false, 0, false), RAdd, map[], 0)
  }

  /** The `i`-th move of a run: a step of one activation, or a call. */
  ghost predicate Move(tr: seq<Sys>, i: int)
    requires 0 <= i < |tr| - 1
  {
    Next(tr[i], tr[i + 1])
  }

  ghost predicate Run(tr: seq<Sys>) {
    |tr| > 0 && Init(tr[0]) && forall i :: 0 <= i < |tr| - 1 ==> Move(tr, i)
  }

  predicate Quiet(s: Sys) {
    s.reg == RDone && s.pool == map[]
  }

  // ----- the invariant of a once-listener -----

  /** The dispatcher that won the claim. */
  predicate Winner(pc: Pc) {
    pc.DBody? || pc.DRelease? || pc.DRemove? || pc.DLoad? || pc.DCleanup?
  }

  /** It still has to look for the cleanup. */
  predicate WillClean(pc: Pc) {
    pc.DRemove? || pc.DLoad? || pc.DCleanup?
  }

  predicate WillRelease(pc: Pc) {
    pc.DBody? || pc.DRelease?
  }

  predicate WillRemove(pc: Pc) {
    pc.DRemove?
  }

  ghost predicate SomeAt(pool: map<nat, Pc>, f: Pc -> bool) {
    exists t :: t in pool && f(pool[t])
  }

  predicate PcOk(l: Listener, pc: Pc) {
    match pc
    case DClaim => l.added
    case DBody => l.fired && !l.released && l.bodies == 0
    case DRelease => l.fired && !l.released && l.bodies == 1
    case DRemove => l.fired && l.released && l.bodies == 1
    case DLoad => l.fired && l.released && l.bodies == 1 && !l.onBus
    case DCleanup => l.fired && l.released && l.bodies == 1 && l.cleanup && !l.onBus
    case HDispose => l.cleanup
  }

  ghost predicate Inv(s: Sys) {
    var l := s.lis;
    && s.lis.once && l.bodies <= 1
    && (l.added <==> s.reg != RAdd) && (l.cleanup <==> s.reg != RAdd && s.reg != RStore)
    && (l.fired ==> l.added) && (l.released ==> l.fired && l.bodies == 1) && (!l.fired ==> l.bodies == 0)
    && (s.reg == RCleanup ==> l.released)
    && (l.cleaned ==> l.cleanup && !l.onBus && !l.listed)
    && (forall t :: t in s.pool ==> t < s.next && PcOk(l, s.pool[t]))
    && (forall t, u :: t in s.pool && u in s.pool && Winner(s.pool[t]) && Winner(s.pool[u]) ==> t == u)
    && (l.fired && !l.released ==> SomeAt(s.pool, WillRelease))
    && (l.released && !l.cleaned && l.cleanup && s.reg == RDone ==> SomeAt(s.pool, WillClean))
    && (l.released && l.onBus ==> SomeAt(s.pool, WillRemove))
  }

  lemma InvStep(s: Sys, t: nat, s': Sys)
    requires Inv(s) && Steps(s, t, s')
    ensures Inv(s')
  {
    var pc := s.pool[t];
    assert PcOk(s.lis, pc);
    var pcs := Dispatch(s.lis, pc).1;
    if pcs != [] { assert t in s'.pool && s'.pool[t] == pcs[0]; }
    forall u | u in s'.pool ensures u < s'.next && PcOk(s'.lis, s'.pool[u]) {
      if u != t { assert PcOk(s.lis, s.pool[u]); assert Winner(pc) ==> !Winner(s.pool[u]); }
    }
    KeepsWinner(s, t, s');
    KeepsCleaner(s, t, s');
    KeepsRemover(s, t, s');
  }

  lemma KeepsWinner(s: Sys, t: nat, s': Sys)
    requires Inv(s) && Steps(s, t, s')
    ensures s'.lis.fired && !s'.lis.released ==> SomeAt(s'.pool, WillRelease)
  {
    if s'.lis.fired && !s'.lis.released {
      if s.lis.fired {
        var k :| k in s.pool && WillRelease(s.pool[k]);
        assert k in s'.pool && WillRelease(s'.pool[k]);
      } else {
        assert t in s'.pool && WillRelease(s'.pool[t]);
      }
    }
  }

  lemma KeepsCleaner(s: Sys, t: nat, s': Sys)
    requires Inv(s) && Steps(s, t, s')
    ensures s'.lis.released && !s'.lis.cleaned && s'.lis.cleanup && s'.reg == RDone ==> SomeAt(s'.pool, WillClean)
  {
    if s'.lis.released && !s'.lis.cleaned && s'.lis.cleanup && s'.reg == RDone {
      if s.lis.released {
        var k :| k in s.pool && WillClean(s.pool[k]);
        assert k in s'.pool && WillClean(s'.pool[k]);
      } else {
        assert t in s'.pool && WillClean(s'.pool[t]);
      }
    }
  }

  lemma KeepsRemover(s: Sys, t: nat, s': Sys)
    requires Inv(s) && Steps(s, t, s')
    ensures s'.lis.released && s'.lis.onBus ==> SomeAt(s'.pool, WillRemove)
  {
    if s'.lis.released && s'.lis.onBus {
      if s.lis.released {
        var k :| k in s.pool && WillRemove(s.pool[k]);
        assert k in s'.pool && WillRemove(s'.pool[k]);
      } else {
        assert t in s'.pool && WillRemove(s'.pool[t]);
      }
    }
  }

  lemma InvRegister(s: Sys, s': Sys)
    requires Inv(s) && Registers(s, s')
    ensures Inv(s')
  {
    forall u | u in s'.pool ensures PcOk(s'.lis, s'.pool[u]) { assert PcOk(s.lis, s.pool[u]); }
  }

  /** A dispatcher that has only begun takes nobody's place. */
  lemma InvCall(s: Sys)
    requires Inv(s)
    ensures forall pc, s' :: Calls(s, pc, s') ==> Inv(s')
  {
    assert s.next !in s.pool;
    forall pc, s' | Calls(s, pc, s') ensures Inv(s') {
      forall f: Pc -> bool | SomeAt(s.pool, f) ensures SomeAt(s'.pool, f) {
        var k :| k in s.pool && f(s.pool[k]);
        assert k in s'.pool && f(s'.pool[k]);
      }
    }
  }

  lemma {:induction false} InvRun(tr: seq<Sys>, i: nat)
    requires Run(tr) && i < |tr| && tr[0].lis.once
    ensures forall k :: 0 <= k <= i ==> Inv(tr[k])
  {
    if i > 0 {
      InvRun(tr, i - 1);
      var s, s' := tr[i - 1], tr[i];
      assert Move(tr, i - 1);
      hide Inv, Run;
      if t :| Steps(s, t, s') { InvStep(s, t, s'); }
      else if Registers(s, s') { InvRegister(s, s'); }
      else { var pc :| Calls(s, pc, s'); InvCall(s); }
    }
  }

  // ----- the theorems -----

  /** Across any number of dispatchers the body of a once-listener runs at most once, and at most one
      dispatcher is ever between its claim and the end of its release. */
  lemma BodyAtMostOnce(tr: seq<Sys>, i: nat)
    requires Run(tr) && i < |tr| && tr[0].lis.once
    ensures tr[i].lis.bodies <= 1
    ensures forall t, u :: t in tr[i].pool && u in tr[i].pool && Winner(tr[i].pool[t]) && Winner(tr[i].pool[u]) ==>
      t == u
  {
    InvRun(tr, i);
  }

  /** Once the registration and every dispatcher are through, a listener that fired has run, was released,
      and its cleanup was run by one side or the other: neither bus nor effect list holds it. */
  lemma AlwaysReleased(tr: seq<Sys>)
    requires Run(tr) && tr[0].lis.once
    ensures forall i :: 0 <= i < |tr| && Quiet(tr[i]) && tr[i].lis.fired ==>
      && tr[i].lis.bodies == 1 && tr[i].lis.released && tr[i].lis.cleaned && !tr[i].lis.onBus
      && !tr[i].lis.listed
  {
    InvRun(tr, |tr| - 1);
  }
}
