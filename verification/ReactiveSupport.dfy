/** Well-founded support: generations never support each other in a cycle. */
module ReactiveSupport {
  import opened Options
  import opened Reactive
  import opened ReactiveWf
  import opened ReactiveDriver
  import opened ReactiveQuiescence
  import opened ReactiveLifecycle

  // ----- binding sequences -----

  /** Every binding in the snapshot a generation loaded against was allocated before the generation. */
  predicate LoadedAgainst(fib: Fiber) {
    match fib.life.epoch
    case Inactive => true
    case Gen(keys) => forall n :: n in keys ==> keys[n].num <= fib.life.base
  }

  ghost predicate SeqOk(s: Sys, f: nat) {
    f in s.core.fibers && f != 0 ==> LoadedAgainst(s.core.fibers[f]) && Younger(s.core.fibers[f])
  }

  lemma SeqPc(c: Core, fib: Fiber, pc: Pc, ch: Choice)
    requires PcWf(c, fib, pc) && PcKnows(fib, pc) && Accounted(fib) && !pc.Unload?
    requires forall e :: e in c.store ==> e <= c.bindingSeq
    requires LoadedAgainst(fib) && Younger(fib)
    ensures LoadedAgainst(DriverFiber(c, fib, pc, ch)) && Younger(DriverFiber(c, fib, pc, ch))
  {
    hide PcWf;
    if pc.LoadCommit? {
      SeqCommit(c, fib, pc.got);
    }
    hide GotWf, KeysOf, LoadedAgainst;
    match pc
    case PassStart => case SyncTop => case Resolve(_, _, _) => case ResolveState(_, _, _, _, _) =>
    case DecideMiss(_) => case DecideHit(_) => case ApplyUnload(_) => SeqEpoch(fib, DriverFiber(c, fib, pc, ch));
    case ApplyLoad(_) => case LoadClaim(_) => SeqEpoch(fib, DriverFiber(c, fib, pc, ch));
    case LoadState(_) => SeqEpoch(fib, DriverFiber(c, fib, pc, ch));
    case LoadCheck(_, _) =>
    case GiveBack => SeqEpoch(fib, DriverFiber(c, fib, pc, ch));
    case GiveBackState => SeqEpoch(fib, DriverFiber(c, fib, pc, ch));
    case GiveBackRefresh =>
    case LoadCommit(_) =>
    case Config => SeqEpoch(fib, DriverFiber(c, fib, pc, ch));
    case Body => case BodyDone =>
    case BodyActive => SeqEpoch(fib, DriverFiber(c, fib, pc, ch));
    case Unload(_, _) =>
    case ReloadMid => SeqEpoch(fib, DriverFiber(c, fib, pc, ch));
    case FailMid =>
    case FailState => SeqEpoch(fib, DriverFiber(c, fib, pc, ch));
    case PassEnd =>
  }

  lemma SeqEpoch(fib: Fiber, fib': Fiber)
    ensures
      && LoadedAgainst(fib)
      && (fib'.life.epoch == Inactive || (fib'.life.epoch == fib.life.epoch && fib'.life.base == fib.life.base))
      ==> LoadedAgainst(fib')
  {}

  lemma SeqCommit(c: Core, fib: Fiber, got: map<Name, nat>)
    ensures GotWf(c, fib.fixed.inject, got) && (forall e :: e in c.store ==> e <= c.bindingSeq) ==>
      forall fib': Fiber :: fib'.life.epoch == Gen(KeysOf(c, got)) && fib'.life.base == c.bindingSeq ==>
          LoadedAgainst(fib')
  {}

  lemma SeqUnload(fib: Fiber, u: UPc)
    ensures LoadedAgainst(fib) && Younger(fib) ==>
      LoadedAgainst(UnloadFiber(fib, u)) && Younger(UnloadFiber(fib, u))
  {
    match u
    case UClaim => case UState => case UClear => case UDrain(_) => case UReset => case UPending => case UFinal =>
  }

  lemma StoreBounded(c: Core)
    ensures CoreWf(c) ==> forall e :: e in c.store ==> e <= c.bindingSeq
  {
    hide CoreWf;
    if CoreWf(c) {
      forall e | e in c.store ensures e <= c.bindingSeq { BindingFacts(c, e); }
    }
  }

  lemma SeqStep(s: Sys, t: nat, ch: Choice, s': Sys, f: nat)
    ensures SysWf(s) && Steps(s, t, ch, s') && LifeOk(s, f) && SeqOk(s, f) ==> SeqOk(s', f)
  {
    hide Exec, PcKnows, CoreWf, DriverFiber;
    if SysWf(s) && Steps(s, t, ch, s') && LifeOk(s, f) && SeqOk(s, f) {
      var c, fr := s.core, s.pool[t];
      assert FrameWf(c, fr);
      if f in s'.core.fibers && f != 0 {
        if f !in c.fibers {
          Newborn(c, fr, ch, f);
        } else if Owns(fr, f) {
          OwnStep(c, f, fr.pc, ch);
          StoreBounded(c);
          hide CoreWf, Exec, LoadedAgainst, Younger, DriverFiber, UnloadFiber;
          if fr.pc.Unload? { SeqUnload(c.fibers[f], fr.pc.u); } else { SeqPc(c, c.fibers[f], fr.pc, ch); }
        } else {
          ForeignStep(c, fr, ch, f);
          hide CoreWf, FrameWf, Exec;
          SeqEpoch(c.fibers[f], s'.core.fibers[f]);
        }
      }
    }
  }

  lemma SeqCall(s: Sys, fr: Frame, s': Sys, f: nat)
    ensures Calls(s, fr, s') && SeqOk(s, f) ==> SeqOk(s', f)
  {
    hide EntryPoint;
  }

  // ----- support -----

  /** The epoch that `f` committed names for `name` a binding that `p`'s standing generation made. */
  predicate Supports(c: Core, p: nat, f: nat, name: Name) {
    && p in c.fibers && f in c.fibers && c.fibers[f].life.epoch.Gen?
    && name in c.fibers[f].life.epoch.keys && c.fibers[f].life.epoch.keys[name].uid == p
    && c.fibers[f].life.epoch.keys[name].num in c.fibers[p].own
  }

  function BaseOf(c: Core, f: nat): nat {
    if f in c.fibers then c.fibers[f].life.base else 0
  }

  /** What a generation makes is younger than all it loaded against: support strictly increases the point
      in the numbering at which generations were committed. */
  lemma SupportGrounded(s: Sys, p: nat, f: nat, name: Name)
    requires SeqOk(s, f) && SeqOk(s, p) && f != 0 && p != 0 && Supports(s.core, p, f, name)
    ensures BaseOf(s.core, p) < BaseOf(s.core, f)
  {
    assert s.core.fibers[f].life.epoch.keys[name].num > s.core.fibers[p].life.base;
  }

  ghost predicate SupportsSome(c: Core, p: nat, f: nat) {
    exists n :: Supports(c, p, f, n)
  }

  /** A chain of supports: each fiber of the chain made something the next one committed to. */
  ghost predicate SupportChain(c: Core, chain: seq<nat>) {
    |chain| > 1 ==> SupportsSome(c, chain[0], chain[1]) && SupportChain(c, chain[1..])
  }

  ghost predicate AllSeqOk(s: Sys) {
    SysWf(s) && forall f :: f in s.core.fibers ==> SeqOk(s, f)
  }

  /** The root injects nothing, so only plugins are supported. */
  lemma LinkGrows(s: Sys, p: nat, f: nat)
    ensures AllSeqOk(s) && SupportsSome(s.core, p, f) ==>
      f != 0 && p in s.core.fibers && f in s.core.fibers && (p != 0 ==> BaseOf(s.core, p) < BaseOf(s.core, f))
  {
    hide CoreWf, FrameWf;
    if AllSeqOk(s) && SupportsSome(s.core, p, f) {
      var n :| Supports(s.core, p, f, n);
      CoreFacts(s.core, f);
      if p != 0 { SupportGrounded(s, p, f, n); }
    }
  }

  lemma {:induction false} ChainGrows(s: Sys, chain: seq<nat>)
    requires AllSeqOk(s) && |chain| > 1 && SupportChain(s.core, chain) && chain[0] != 0
    ensures BaseOf(s.core, chain[0]) < BaseOf(s.core, chain[|chain| - 1])
  {
    hide AllSeqOk, SupportsSome, BaseOf;
    LinkGrows(s, chain[0], chain[1]);
    if |chain| > 2 {
      ChainGrows(s, chain[1..]);
    }
  }

  lemma {:induction false} ChainEndsInPlugin(s: Sys, chain: seq<nat>)
    requires AllSeqOk(s) && |chain| > 1 && SupportChain(s.core, chain)
    ensures chain[|chain| - 1] != 0
  {
    hide AllSeqOk, SupportsSome;
    LinkGrows(s, chain[0], chain[1]);
    if |chain| > 2 { ChainEndsInPlugin(s, chain[1..]); }
  }

  /** Generations never support each other in a cycle, whatever is in flight. */
  lemma NoSupportCycle(s: Sys, chain: seq<nat>)
    requires AllSeqOk(s) && |chain| > 1 && SupportChain(s.core, chain)
    ensures chain[0] != chain[|chain| - 1]
  {
    hide AllSeqOk;
    ChainEndsInPlugin(s, chain);
    if chain[0] != 0 { ChainGrows(s, chain); }
  }
}
