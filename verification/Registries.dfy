/** The service and runtime registries in the form the source has them (service.go, fiber.go, registry.go):
    maps behind one lock, written in place and walked by loops. */
module Registries {
  import opened Options
  import opened Reactive

  // ----- service.go -----

  /** The service bindings of an application; `store` is every binding ever made. */
  class ServiceRegistry {
    var bindings: map<Label, nat>
    var store: map<nat, Binding>
    var bindingSeq: nat

    function Now(): Core
      reads this
    {
      Core(map[], store, bindings, map[], map[], map[], 0, bindingSeq, 0)
    }

    ghost predicate Valid()
      reads this
    {
      && (forall e :: e in store ==> e <= bindingSeq)
      && (forall at :: at in bindings ==> bindings[at] in store && store[bindings[at]].at == at)
    }

    constructor ()
      ensures Valid() && Now() == Core(map[], map[], map[], map[], map[], map[], 0, 0, 0)
    {
      bindings, store, bindingSeq := map[], map[], 0;
    }

    /** `nextBindingSeq`, with the binding it is handed out for. */
    method Allocate(b: Binding) returns (e: nat)
      requires Valid()
      modifies this
      ensures Valid() && e !in old(store) && store == old(store)[e := b] && bindings == old(bindings)
      ensures forall x :: x in old(store) ==> x < e
    {
      bindingSeq := bindingSeq + 1;
      e := bindingSeq;
      store := store[e := b];
    }

    /** A label carries one service: the second registration fails and changes nothing. */
    method RegisterService(e: nat) returns (ok: bool)
      requires Valid() && e in store
      modifies this
      ensures Valid() && store == old(store) && ok == (store[e].at !in old(bindings))
      ensures bindings == (if ok then old(bindings)[store[e].at := e] else old(bindings))
      ensures ok ==> Registered(Now(), store[e].at, store[e].name) == Some(e)
    {
      ok := store[e].at !in bindings;
      if ok { bindings := bindings[store[e].at := e]; }
    }

    /** Only the binding that holds the slot leaves it: a successor is never removed. */
    method UnregisterService(e: nat)
      requires Valid() && e in store
      modifies this
      ensures Valid() && store == old(store)
      ensures forall at :: at in old(bindings) && old(bindings)[at] != e ==>
        at in bindings && bindings[at] == old(bindings)[at]
      ensures forall at :: at in bindings ==>
        at in old(bindings) && bindings[at] == old(bindings)[at] && bindings[at] != e
    {
      var at := store[e].at;
      if at in bindings && bindings[at] == e { bindings := bindings - {at}; }
    }

    /** The slot of a label, if the name is the right one. */
    method LookupSlot(at: Label, name: Name) returns (slot: Option<nat>)
      requires Valid()
      ensures slot == Registered(Now(), at, name)
      ensures slot.Some? ==> store[slot.value].at == at && store[slot.value].name == name
    {
      if at in bindings && store[bindings[at]].name == name { return Some(bindings[at]); }
      slot := None;
    }

    /** `providedNames`: the walk over the bindings. */
    method NamesOf(provider: nat) returns (names: set<Name>)
      requires Valid()
      ensures names == ProvidedNames(Now(), provider)
    {
      names := {};
      var todo := bindings.Keys;
      while todo != {}
        invariant todo <= bindings.Keys
        invariant names == set at | at in bindings && at !in todo
          && store[bindings[at]].provider == provider :: store[bindings[at]].name
        decreases |todo|
      {
        var at :| at in todo;
        ghost var before := names;
        if store[bindings[at]].provider == provider { names := names + {store[bindings[at]].name}; }
        todo := todo - {at};
      }
    }
  }

  // ----- registry.go -----

  class RuntimeRegistry {
    var runtimes: map<nat, nat>
    var rts: map<nat, Runtime>
    var runtimeSeq: nat

    function Now(): Core
      reads this
    {
      Core(map[], map[], map[], map[], runtimes, rts, 0, 0, runtimeSeq)
    }

    /** A definition is registered exactly while its runtime has a claim or a fiber. */
    ghost predicate Valid()
      reads this
    {
      && (forall r :: r in rts ==> r <= runtimeSeq && rts[r].claims >= 0)
      && (forall d :: d in runtimes ==> runtimes[d] in rts && rts[runtimes[d]].def == d && InUse(rts[runtimes[d]]))
      && (forall r :: r in rts && InUse(rts[r]) ==> rts[r].def in runtimes && runtimes[rts[r].def] == r)
    }

    constructor ()
      ensures Valid() && Now() == Core(map[], map[], map[], map[], map[], map[], 0, 0, 0)
    {
      runtimes, rts, runtimeSeq := map[], map[], 0;
    }

    /** `runtimeFor`: the registered runtime of a definition, made if there is none, claimed for this load. */
    method RuntimeFor(def: nat) returns (r: nat)
      requires Valid()
      modifies this
      ensures Valid() && def in runtimes && runtimes[def] == r && runtimes == old(runtimes)[def := r]
      ensures r in old(rts) <==> def in old(runtimes)
      ensures var was := if r in old(rts) then old(rts)[r] else Runtime(def, {}, 0);
        rts == old(rts)[r := was.(claims := was.claims + 1)]
    {
      if def !in runtimes {
        runtimeSeq := runtimeSeq + 1;
        runtimes := runtimes[def := runtimeSeq];
        rts := rts[runtimeSeq := Runtime(def, {}, 0)];
      }
      r := runtimes[def];
      rts := rts[r := rts[r].(claims := rts[r].claims + 1)];
    }

    /** `attachFiber`. */
    method AttachFiber(r: nat, f: nat)
      requires Valid() && r in rts && rts[r].claims > 0
      modifies this
      ensures Valid() && runtimes == old(runtimes)
      ensures rts == old(rts)[r := old(rts)[r].(fibers := old(rts)[r].fibers + {f}, claims := old(rts)[r].claims - 1)]
    {
      rts := rts[r := rts[r].(fibers := rts[r].fibers + {f}, claims := rts[r].claims - 1)];
    }

    /** `removeFiber`: the definition leaves the registry with its last fiber, unless a load still holds it. */
    method RemoveFiberOf(r: nat, f: nat)
      requires Valid() && r in rts && f in rts[r].fibers
      modifies this
      ensures Valid() && rts == old(rts)[r := old(rts)[r].(fibers := old(rts)[r].fibers - {f})]
      ensures forall d :: d in old(runtimes) && d != rts[r].def ==> d in runtimes && runtimes[d] == old(runtimes)[d]
      ensures forall d :: d in runtimes ==> d in old(runtimes) && runtimes[d] == old(runtimes)[d]
    {
      rts := rts[r := rts[r].(fibers := rts[r].fibers - {f})];
      Drop(r);
    }

    /** The registry lets an unused runtime go. */
    method Drop(r: nat)
      requires r in rts
      modifies this`runtimes
      ensures runtimes == if InUse(rts[r]) then old(runtimes) else old(runtimes) - {rts[r].def}
    {
      if rts[r].claims == 0 && rts[r].fibers == {} { runtimes := runtimes - {rts[r].def}; }
    }

    /** `load`: the runtime is claimed, and the claim becomes the fiber `f`, or is given back when the parent
        refuses the fiber. A refused load leaves no trace, and an accepted one leaves its fiber and no claim. */
    method Load(def: nat, f: nat, accepted: bool) returns (r: nat)
      requires Valid()
      modifies this
      ensures Valid()
      ensures forall q :: q in old(rts) && q != r ==> q in rts && rts[q] == old(rts)[q]
      ensures forall d :: d != def ==>
        (d in runtimes <==> d in old(runtimes)) && (d in runtimes ==> runtimes[d] == old(runtimes)[d])
      ensures accepted ==> def in runtimes && runtimes[def] == r
      ensures accepted && def in old(runtimes) ==> rts[r] == old(rts)[r].(fibers := old(rts)[r].fibers + {f})
      ensures accepted && def !in old(runtimes) ==> rts[r] == Runtime(def, {f}, 0)
      ensures !accepted ==> runtimes == old(runtimes) && forall q :: q in old(rts) ==> q in rts && rts[q] == old(rts)[q]
    {
      r := RuntimeFor(def);
      if accepted {
        AttachFiber(r, f);
      } else {
        rts := rts[r := rts[r].(claims := rts[r].claims - 1)];
        Drop(r);
      }
    }

    /** `snapshotFibers`: every fiber of every registered runtime. */
    method SnapshotFibers() returns (fibers: set<nat>)
      requires Valid()
      ensures forall f :: f in fibers <==> exists d :: d in runtimes && f in rts[runtimes[d]].fibers
    {
      fibers := {};
      var todo := runtimes.Keys;
      while todo != {}
        invariant todo <= runtimes.Keys
        invariant forall f :: f in fibers <==> exists d :: d in runtimes && d !in todo && f in rts[runtimes[d]].fibers
        decreases |todo|
      {
        var d :| d in todo;
        fibers := fibers + rts[runtimes[d]].fibers;
        todo := todo - {d};
      }
    }
  }
}
